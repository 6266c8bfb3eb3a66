/**
  Interleaved transactions. An authorization reads its payer in one step; a capture reads the
  payment, the hold and the payer in three; each writes in a later commit step what it computed
  from the copies, if the payer's stored version is still the one read. Any other step may come in
  between, also between the reads of a capture, which take no lock. A capture is torn if its payment
  or its hold changed before its payer was read. Interleavings are serializable exactly as long as
  no torn capture commits: that none does is an assumption, which the code does not enforce.
 */
module Concurrency {
  import opened Common
  import opened Entities
  import opened Ledger
  import opened LedgerInvariant
  import opened Settlement
  import opened SettlementInvariant
  import opened Machine
  import opened Versions

  /**
    A transaction between its reads and its commit. Bookkeeping only: `current` says that the payment
    and hold rows a capture read were still the stored rows when it read the payer.
   */
  datatype Open =
    | OpenAuthorize(input: AuthorizeInput, now: int, draw: Draw, payer: Payer)
    | PaymentRead(paymentId: Id, payment: Payment)
    | HoldRead(paymentId: Id, payment: Payment, hold: Hold)
    | OpenCapture(paymentId: Id, now: int, eventId: Id, read: Receipt, current: bool)

  datatype System = System(db: Db, open: map<nat, Open>)

  datatype Turn =
    | ReadAuthorize(t: nat, input: AuthorizeInput, now: int, draw: Draw)
    | ReadPayment(t: nat, paymentId: Id)
    | ReadHold(t: nat)
    | ReadPayer(t: nat, now: int, eventId: Id)
    | Commit(t: nat)
    | Whole(action: Action)

  /** The compare-and-set of UpdatePayer, against the stored row. */
  predicate VersionHolds(l: Ledger, read: Payer) {
    read.id in l.payers && l.payers[read.id].version == read.version
  }

  function UpdateError(l: Ledger, read: Payer): Error {
    if read.id in l.payers then PayerVersionConflict else PayerNotFound
  }

  /** What an authorization computes from the payer it read, and then tries to write. */
  function CommitAuthorize(l: Ledger, tx: Open): Result<Receipt, Error>
    requires tx.OpenAuthorize?
  {
    var input := tx.input;
    if tx.payer.currency != input.currency then Err(PayerCurrencyMismatch)
    else if !tx.payer.CanAuthorize(input.amount, input.currency) then Err(InsufficientAvailableBalance)
    else
      var hold :- NewHold(tx.draw.holdId, tx.draw.paymentId, tx.payer.id, input.amount, input.currency, tx.now);
      var payment :- NewAuthorizedPayment(tx.draw.paymentId, input.merchantId, tx.payer.id, input.amount,
                                          input.currency, hold.id, tx.now, tx.now + HOLD_PERIOD);
      var reserved :- tx.payer.Reserve(input.amount, input.currency, tx.now);
      if !VersionHolds(l, tx.payer) then Err(UpdateError(l, tx.payer))
      else if tx.draw.paymentId in l.payments then Err(DuplicatePayment)
      else if tx.draw.holdId in l.holds || tx.draw.paymentId in l.holdOf then Err(DuplicateHold)
      else if !FreshEvent(l, tx.draw.eventId) then Err(DuplicateEvent)
      else Ok(Receipt(payment, hold, reserved))
  }

  function CommitCapture(l: Ledger, tx: Open): Result<Receipt, Error>
    requires tx.OpenCapture?
  {
    var r :- CaptureRows(tx.read, tx.now);
    if !VersionHolds(l, tx.read.payer) then Err(UpdateError(l, tx.read.payer))
    else if r.hold.id !in l.holds then Err(HoldNotFound)
    else if r.payment.id !in l.payments then Err(PaymentNotFound)
    else if !FreshEvent(l, tx.eventId) then Err(DuplicateEvent)
    else Ok(r)
  }

  predicate Ready(tx: Open) {
    tx.OpenAuthorize? || tx.OpenCapture?
  }

  function CommitTo(l: Ledger, tx: Open): Ledger
    requires Ready(tx)
  {
    match tx
    case OpenAuthorize(_, now, draw, _) =>
      var r := CommitAuthorize(l, tx);
      if r.Ok? then Write(l, r.value, AuthorizedEvent(draw.eventId, r.value, now)) else l
    case OpenCapture(_, now, eventId, _, _) =>
      var r := CommitCapture(l, tx);
      if r.Ok? then Write(l, r.value, CapturedEvent(eventId, r.value, now)) else l
  }

  predicate Commits(l: Ledger, tx: Open) {
    match tx
    case OpenAuthorize(_, _, _, _) => CommitAuthorize(l, tx).Ok?
    case OpenCapture(_, _, _, _, _) => CommitCapture(l, tx).Ok?
    case _ => false
  }

  /** The same transaction as one uninterrupted action. */
  function Alone(tx: Open): Action
    requires Ready(tx)
  {
    match tx
    case OpenAuthorize(input, now, draw, _) => DoAuthorize(input, now, draw)
    case OpenCapture(paymentId, now, eventId, _, _) => DoCapture(paymentId, now, eventId)
  }

  predicate MayCreate(merchants: map<Id, MerchantStatus>, merchantId: Id) {
    merchantId in merchants && merchants[merchantId].Active?
  }

  predicate HasHold(l: Ledger, p: Id) {
    p in l.holdOf && l.holdOf[p] in l.holds
  }

  /** The rows are what the tables hold for the payment. */
  predicate Stored(l: Ledger, p: Id, payment: Payment, hold: Hold) {
    p in l.payments && l.payments[p] == payment && HasHold(l, p) && l.holds[l.holdOf[p]] == hold
  }

  function Put(s: System, t: nat, tx: Open): System {
    s.(open := s.open[t := tx])
  }

  function Close(s: System, t: nat): System {
    s.(open := s.open - {t})
  }

  /** A read that finds no row ends its transaction. */
  ghost function Next(s: System, merchants: map<Id, MerchantStatus>, e: Turn): System
    requires Keyed(s.db.ledger)
  {
    var l := s.db.ledger;
    match e
    case ReadAuthorize(t, input, now, draw) =>
      if t !in s.open && MayCreate(merchants, input.merchantId) && input.payerId in l.payers
      then Put(s, t, OpenAuthorize(input, now, draw, l.payers[input.payerId])) else s
    case ReadPayment(t, p) =>
      if t !in s.open && p in l.payments then Put(s, t, PaymentRead(p, l.payments[p])) else s
    case ReadHold(t) =>
      if t !in s.open || !s.open[t].PaymentRead? then s
      else
        var tx := s.open[t];
        if HasHold(l, tx.payment.id)
        then Put(s, t, HoldRead(tx.paymentId, tx.payment, l.holds[l.holdOf[tx.payment.id]])) else Close(s, t)
    case ReadPayer(t, now, eventId) =>
      if t !in s.open || !s.open[t].HoldRead? then s
      else
        var tx := s.open[t];
        if tx.payment.payerId in l.payers then
          Put(s, t, OpenCapture(tx.paymentId, now, eventId, Receipt(tx.payment, tx.hold, l.payers[tx.payment.payerId]),
                                Stored(l, tx.paymentId, tx.payment, tx.hold)))
        else Close(s, t)
    case Commit(t) =>
      if t in s.open && Ready(s.open[t]) then Close(s.(db := s.db.(ledger := CommitTo(l, s.open[t]))), t) else s
    case Whole(a) => s.(db := Step(s.db, merchants, a))
  }

  // ----- what a transaction's copies are worth -----

  /** As long as the payment is authorized, its row is the one read. */
  predicate PaymentVouched(l: Ledger, p: Id, q: Payment) {
    && Readable(l, p) && q.id == p && q.payerId == l.payments[p].payerId
    && (l.payments[p].status.Authorized? ==> l.payments[p] == q)
  }

  predicate HoldVouched(l: Ledger, p: Id, q: Payment, h: Hold) {
    && PaymentVouched(l, p, q)
    && (l.payments[p].status.Authorized? ==> l.holds[l.holdOf[p]] == h)
  }

  /**
    An authorized payment makes the whole read current, and a current read is still stored if the
    payer's version is.
   */
  predicate ReadVouched(l: Ledger, p: Id, read: Receipt, current: bool) {
    && HoldVouched(l, p, read.payment, read.hold)
    && read.payer.id == read.payment.payerId && read.payer.id in l.payers
    && l.payers[read.payer.id].version >= read.payer.version
    && (l.payments[p].status.Authorized? ==> current)
    && (current && read.payment.status.Authorized? && VersionHolds(l, read.payer) ==> Reads(l, p) == read)
  }

  predicate Vouched(l: Ledger, merchants: map<Id, MerchantStatus>, tx: Open) {
    match tx
    case OpenAuthorize(input, _, _, payer) =>
      && MayCreate(merchants, input.merchantId) && payer.id == input.payerId && payer.id in l.payers
      && l.payers[payer.id].version >= payer.version
      && (VersionHolds(l, payer) ==> l.payers[payer.id] == payer)
    case PaymentRead(p, q) => PaymentVouched(l, p, q)
    case HoldRead(p, q, h) => HoldVouched(l, p, q, h)
    case OpenCapture(p, _, _, read, current) => ReadVouched(l, p, read, current)
  }

  lemma VouchedLater(l: Ledger, m: Ledger, merchants: map<Id, MerchantStatus>, tx: Open)
    requires Vouched(l, merchants, tx) && Guarded(l, m)
    ensures Vouched(m, merchants, tx)
  {
    if !tx.OpenAuthorize? {
      assert Vouches(l, m, tx.paymentId);
    }
  }

  /** The transaction read rows that were all stored at one instant. */
  predicate Coherent(tx: Open) {
    tx.OpenCapture? ==> tx.current
  }

  /**
    A commit whose version check passes does what the transaction would do alone at that point, if and
    only if the payment and hold rows it read were still stored when it read the payer.
   */
  lemma CommitIsAlone(l: Ledger, merchants: map<Id, MerchantStatus>, tx: Open)
    requires Keyed(l) && Ready(tx) && Vouched(l, merchants, tx) && Commits(l, tx)
    ensures CommitTo(l, tx) == LedgerStep(l, merchants, Alone(tx)) <==> Coherent(tx)
  {
    match tx {
      case OpenAuthorize(input, now, draw, payer) =>
        assert CommitAuthorize(l, tx) == Authorize(l, merchants, input, now, draw);
      case OpenCapture(p, now, eventId, read, current) =>
        if current {
          assert CommitCapture(l, tx) == Capture(l, p, now, eventId);
        } else {
          assert Capture(l, p, now, eventId).Err?;
          assert |CommitTo(l, tx).log| == |l.log| + 1;
        }
    }
  }

  /**
    While the version holds, a commit's result is that of the lone run, error for error, unless it is a
    torn capture that read an authorized payment; that one's lone run is refused. Without the version
    no commit succeeds.
   */
  lemma VersionDecides(l: Ledger, merchants: map<Id, MerchantStatus>, tx: Open)
    requires Keyed(l) && Ready(tx) && Vouched(l, merchants, tx)
    ensures match tx
            case OpenAuthorize(input, now, draw, payer) =>
              VersionHolds(l, payer) ==> CommitAuthorize(l, tx) == Authorize(l, merchants, input, now, draw)
            case OpenCapture(p, now, eventId, read, current) =>
              VersionHolds(l, read.payer) ==>
                if current || !read.payment.status.Authorized? then CommitCapture(l, tx) == Capture(l, p, now, eventId)
                else Capture(l, p, now, eventId) == Err(PaymentNotCapturable)
    ensures Commits(l, tx) ==> VersionHolds(l, if tx.OpenAuthorize? then tx.payer else tx.read.payer)
  {}

  // ----- whole histories -----

  const IDLE: System := System(EMPTY, map[])

  ghost function History(merchants: map<Id, MerchantStatus>, turns: seq<Turn>): System {
    if turns == [] then IDLE
    else
      var before := History(merchants, turns[..|turns| - 1]);
      if Keyed(before.db.ledger) then Next(before, merchants, turns[|turns| - 1]) else before
  }

  predicate Succeeds(s: System, e: Turn) {
    e.Commit? && e.t in s.open && Commits(s.db.ledger, s.open[e.t])
  }

  /** What the event adds to the serial schedule: a whole action, or a transaction at its successful commit. */
  function Scheduled(s: System, e: Turn): seq<Action> {
    if e.Whole? then [e.action]
    else if Succeeds(s, e) then [Alone(s.open[e.t])]
    else []
  }

  ghost function Serial(merchants: map<Id, MerchantStatus>, turns: seq<Turn>): seq<Action> {
    if turns == [] then []
    else
      var n := |turns| - 1;
      Serial(merchants, turns[..n]) + Scheduled(History(merchants, turns[..n]), turns[n])
  }

  /** A capture commits although its payment or hold changed before its payer was read. */
  predicate Torn(s: System, e: Turn) {
    Succeeds(s, e) && !Coherent(s.open[e.t])
  }

  ghost predicate TornAt(merchants: map<Id, MerchantStatus>, turns: seq<Turn>, k: nat)
    requires k < |turns|
  {
    Torn(History(merchants, turns[..k]), turns[k])
  }

  ghost predicate Untorn(merchants: map<Id, MerchantStatus>, turns: seq<Turn>) {
    forall k :: 0 <= k < |turns| ==> !TornAt(merchants, turns, k)
  }

  lemma UntornPrefix(merchants: map<Id, MerchantStatus>, turns: seq<Turn>, n: nat)
    requires n <= |turns|
    ensures Untorn(merchants, turns) ==> Untorn(merchants, turns[..n])
    ensures n == |turns| - 1 ==>
              (Untorn(merchants, turns) <==> Untorn(merchants, turns[..n]) && !TornAt(merchants, turns, n))
  {
    hide Torn;
    forall k | 0 <= k < n ensures TornAt(merchants, turns[..n], k) == TornAt(merchants, turns, k) {
      assert turns[..n][..k] == turns[..k];
    }
  }

  ghost predicate AllVouched(s: System, merchants: map<Id, MerchantStatus>) {
    forall t :: t in s.open ==> Vouched(s.db.ledger, merchants, s.open[t])
  }

  lemma AllVouchedLater(s: System, db: Db, open: map<nat, Open>, merchants: map<Id, MerchantStatus>)
    requires AllVouched(s, merchants) && Guarded(s.db.ledger, db.ledger)
    requires forall t :: t in open ==> t in s.open && open[t] == s.open[t]
    ensures AllVouched(System(db, open), merchants)
  {
    forall t | t in open ensures Vouched(db.ledger, merchants, open[t]) {
      VouchedLater(s.db.ledger, db.ledger, merchants, s.open[t]);
    }
  }

  lemma RunSnoc(merchants: map<Id, MerchantStatus>, actions: seq<Action>, a: Action)
    requires Keyed(Run(merchants, actions).ledger)
    ensures Run(merchants, actions + [a]) == Step(Run(merchants, actions), merchants, a)
  {
    assert (actions + [a])[..|actions|] == actions;
  }

  lemma AllReadable(l: Ledger, p: Id)
    requires Inv(l) && p in l.payments
    ensures Readable(l, p) && l.payments[p].id == p && l.payers[l.payments[p].payerId].id == l.payments[p].payerId
    ensures l.holds[l.holdOf[p]].id == l.holdOf[p]
  {
    hide Balanced, Replayed, Logged;
    assert PaymentOk(p, l.payments[p]) && PayerOk(l.payments[p].payerId, l.payers[l.payments[p].payerId]);
    assert Paired(l.payments[p], l.holds[l.payments[p].holdId]);
  }

  lemma AuthorizeReadVouched(l: Ledger, merchants: map<Id, MerchantStatus>, input: AuthorizeInput, now: int, draw: Draw)
    requires Keyed(l) && MayCreate(merchants, input.merchantId) && input.payerId in l.payers
    ensures Vouched(l, merchants, OpenAuthorize(input, now, draw, l.payers[input.payerId]))
  {}

  lemma PaymentReadVouched(l: Ledger, p: Id)
    requires Inv(l) && p in l.payments
    ensures PaymentVouched(l, p, l.payments[p])
  {
    hide Inv;
    AllReadable(l, p);
  }

  lemma HoldReadVouched(l: Ledger, p: Id, q: Payment)
    requires PaymentVouched(l, p, q) && HasHold(l, q.id)
    ensures HoldVouched(l, p, q, l.holds[l.holdOf[q.id]])
  {}

  lemma PayerReadVouched(l: Ledger, p: Id, q: Payment, h: Hold)
    requires Inv(l) && HoldVouched(l, p, q, h) && q.payerId in l.payers
    ensures ReadVouched(l, p, Receipt(q, h, l.payers[q.payerId]), Stored(l, p, q, h))
  {
    hide Inv;
    AllReadable(l, p);
  }

  lemma ReadsVouched(s: System, merchants: map<Id, MerchantStatus>, e: Turn)
    requires DbInv(s.db) && Keyed(s.db.ledger) && AllVouched(s, merchants)
    requires !e.Commit? && !e.Whole?
    ensures AllVouched(Next(s, merchants, e), merchants) && Next(s, merchants, e).db == s.db
  {
    hide Inv, SettleInv, Keyed, MayCreate, HasHold, Stored, PaymentVouched, HoldVouched, ReadVouched;
    var l := s.db.ledger;
    match e {
      case ReadAuthorize(t, input, now, draw) =>
        if MayCreate(merchants, input.merchantId) && input.payerId in l.payers {
          AuthorizeReadVouched(l, merchants, input, now, draw);
        }
      case ReadPayment(t, p) =>
        if p in l.payments {
          PaymentReadVouched(l, p);
        }
      case ReadHold(t) =>
        if t in s.open && s.open[t].PaymentRead? && HasHold(l, s.open[t].payment.id) {
          HoldReadVouched(l, s.open[t].paymentId, s.open[t].payment);
        }
      case ReadPayer(t, now, eventId) =>
        if t in s.open && s.open[t].HoldRead? && s.open[t].payment.payerId in l.payers {
          PayerReadVouched(l, s.open[t].paymentId, s.open[t].payment, s.open[t].hold);
        }
    }
  }

  lemma NextSerial(s: System, merchants: map<Id, MerchantStatus>, serial: seq<Action>, e: Turn)
    requires DbInv(s.db) && Keyed(s.db.ledger) && AllVouched(s, merchants) && Run(merchants, serial) == s.db
    requires !Torn(s, e)
    ensures AllVouched(Next(s, merchants, e), merchants)
    ensures Run(merchants, serial + Scheduled(s, e)) == Next(s, merchants, e).db
  {
    hide DbInv, Guarded, Step, Run, Vouched;
    assert serial + [] == serial;
    match e {
      case Commit(t) =>
        CommitStep(s, merchants, serial, t);
      case Whole(a) =>
        StepGuarded(s.db, merchants, a);
        AllVouchedLater(s, Step(s.db, merchants, a), s.open, merchants);
        RunSnoc(merchants, serial, a);
      case _ =>
        ReadsVouched(s, merchants, e);
    }
  }

  lemma CommitStep(s: System, merchants: map<Id, MerchantStatus>, serial: seq<Action>, t: nat)
    requires DbInv(s.db) && Keyed(s.db.ledger) && AllVouched(s, merchants) && Run(merchants, serial) == s.db
    requires !Torn(s, Commit(t))
    ensures AllVouched(Next(s, merchants, Commit(t)), merchants)
    ensures Run(merchants, serial + Scheduled(s, Commit(t))) == Next(s, merchants, Commit(t)).db
  {
    hide DbInv, Guarded, Run, Vouched;
    assert serial + [] == serial;
    if t in s.open && Ready(s.open[t]) {
      var tx := s.open[t];
      if Commits(s.db.ledger, tx) {
        CommitIsAlone(s.db.ledger, merchants, tx);
        RunSnoc(merchants, serial, Alone(tx));
        StepGuarded(s.db, merchants, Alone(tx));
      } else {
        GuardedSelf(s.db.ledger);
      }
      AllVouchedLater(s, Next(s, merchants, Commit(t)).db, s.open - {t}, merchants);
    }
  }

  /**
    Serializability by version: an interleaving in which no torn capture commits leaves the database
    of the serial run of the successful transactions in commit order, so everything proved of serial
    runs holds of it.
   */
  lemma {:induction false} Serializable(merchants: map<Id, MerchantStatus>, turns: seq<Turn>)
    requires Untorn(merchants, turns)
    ensures var s := History(merchants, turns);
            && s.db == Run(merchants, Serial(merchants, turns))
            && DbInv(s.db) && Keyed(s.db.ledger) && AllVouched(s, merchants)
    decreases |turns|
  {
    hide DbInv, Next, AllVouched, Scheduled, Torn, Untorn;
    ReachableInv(merchants, Serial(merchants, turns));
    if turns == [] {
      IdleVouched(merchants);
    } else {
      var n := |turns| - 1;
      UntornPrefix(merchants, turns, n);
      Serializable(merchants, turns[..n]);
      NextSerial(History(merchants, turns[..n]), merchants, Serial(merchants, turns[..n]), turns[n]);
    }
  }

  lemma IdleVouched(merchants: map<Id, MerchantStatus>)
    ensures AllVouched(IDLE, merchants)
  {}
}
