/**
  Captures whose three reads are not one instant: exactly when histories stop being serializable,
  what such a capture does to the ledger, and an assumption under which none commits.
 */
module TornReads {
  import opened Common
  import opened Entities
  import opened Ledger
  import opened LedgerInvariant
  import opened SettlementInvariant
  import opened Machine
  import opened Theorems
  import opened Versions
  import opened Concurrency
  import opened Scenario

  // ----- the exact condition -----

  /** After k turns the database is that of the serial run. */
  ghost predicate SerialAt(merchants: map<Id, MerchantStatus>, turns: seq<Turn>, k: nat)
    requires k <= |turns|
  {
    History(merchants, turns[..k]).db == Run(merchants, Serial(merchants, turns[..k]))
  }

  ghost predicate SerialThroughout(merchants: map<Id, MerchantStatus>, turns: seq<Turn>) {
    forall k :: 0 <= k <= |turns| ==> SerialAt(merchants, turns, k)
  }

  lemma SerialPrefix(merchants: map<Id, MerchantStatus>, turns: seq<Turn>, n: nat)
    requires n <= |turns| && SerialThroughout(merchants, turns)
    ensures SerialThroughout(merchants, turns[..n])
  {
    hide History, Serial, Run;
    forall k | 0 <= k <= n ensures SerialAt(merchants, turns[..n], k) {
      assert turns[..n][..k] == turns[..k];
      assert SerialAt(merchants, turns, k);
    }
  }

  /** The first torn commit leaves a database no serial run in commit order has. */
  lemma TornDiverges(s: System, merchants: map<Id, MerchantStatus>, serial: seq<Action>, e: Turn)
    requires DbInv(s.db) && Keyed(s.db.ledger) && AllVouched(s, merchants) && Run(merchants, serial) == s.db
    requires Torn(s, e)
    ensures Next(s, merchants, e).db != Run(merchants, serial + Scheduled(s, e))
  {
    hide DbInv, Run, Vouched, LedgerStep, CommitTo;
    var tx := s.open[e.t];
    CommitIsAlone(s.db.ledger, merchants, tx);
    RunSnoc(merchants, serial, Alone(tx));
  }

  lemma {:induction false} ThroughoutUntorn(merchants: map<Id, MerchantStatus>, turns: seq<Turn>)
    requires SerialThroughout(merchants, turns)
    ensures Untorn(merchants, turns)
    decreases |turns|
  {
    hide DbInv, Next, AllVouched, Scheduled, Torn, Run, Untorn, SerialThroughout;
    if turns == [] {
      NoneTorn(merchants);
    } else {
      var n := |turns| - 1;
      SerialPrefix(merchants, turns, n);
      ThroughoutUntorn(merchants, turns[..n]);
      Serializable(merchants, turns[..n]);
      LastSerial(merchants, turns);
      if Torn(History(merchants, turns[..n]), turns[n]) {
        TornDiverges(History(merchants, turns[..n]), merchants, Serial(merchants, turns[..n]), turns[n]);
      }
      UntornPrefix(merchants, turns, n);
    }
  }

  lemma NoneTorn(merchants: map<Id, MerchantStatus>)
    ensures Untorn(merchants, [])
  {}

  lemma LastSerial(merchants: map<Id, MerchantStatus>, turns: seq<Turn>)
    requires SerialThroughout(merchants, turns)
    ensures History(merchants, turns).db == Run(merchants, Serial(merchants, turns))
  {
    hide History, Serial, Run;
    assert SerialAt(merchants, turns, |turns|);
    assert turns[..|turns|] == turns;
  }

  /**
    Serializability, exactly: an interleaving stays the serial run in commit order, event for event, if
    and only if no capture commits whose payment or hold changed before its payer was read.
   */
  lemma SerializableExactly(merchants: map<Id, MerchantStatus>, turns: seq<Turn>)
    ensures SerialThroughout(merchants, turns) <==> Untorn(merchants, turns)
  {
    hide History, Serial, Run, Untorn, DbInv, AllVouched;
    if Untorn(merchants, turns) {
      forall k | 0 <= k <= |turns| ensures SerialAt(merchants, turns, k) {
        UntornPrefix(merchants, turns, k);
        Serializable(merchants, turns[..k]);
      }
    }
    if SerialThroughout(merchants, turns) {
      ThroughoutUntorn(merchants, turns);
    }
  }

  // ----- an assumption that suffices -----

  /** The three reads that end with event i are consecutive. */
  ghost predicate OneInstant(merchants: map<Id, MerchantStatus>, turns: seq<Turn>, i: nat)
    requires i < |turns| && turns[i].ReadPayer?
  {
    && i >= 2 && turns[i - 1] == ReadHold(turns[i].t)
    && turns[i - 2].ReadPayment? && turns[i - 2].t == turns[i].t
    && turns[i].t !in History(merchants, turns[..i - 2]).open
  }

  ghost predicate Snapshots(merchants: map<Id, MerchantStatus>, turns: seq<Turn>) {
    forall i :: 0 <= i < |turns| && turns[i].ReadPayer? ==> OneInstant(merchants, turns, i)
  }

  ghost predicate AllCoherent(s: System) {
    forall t :: t in s.open ==> Coherent(s.open[t])
  }

  lemma SnapshotsPrefix(merchants: map<Id, MerchantStatus>, turns: seq<Turn>)
    requires turns != [] && Snapshots(merchants, turns)
    ensures Snapshots(merchants, turns[..|turns| - 1])
  {
    hide History;
    var n := |turns| - 1;
    forall i | 0 <= i < n && turns[..n][i].ReadPayer? ensures OneInstant(merchants, turns[..n], i) {
      assert OneInstant(merchants, turns, i);
      assert turns[..n][..i - 2] == turns[..i - 2];
    }
  }

  /** Three consecutive reads see one state. */
  lemma ReadsCoherent(s: System, merchants: map<Id, MerchantStatus>, t: nat, p: Id, now: int, eventId: Id)
    requires Keyed(s.db.ledger) && AllCoherent(s) && t !in s.open
    ensures var one := Next(s, merchants, ReadPayment(t, p));
            one.db == s.db
            && (var two := Next(one, merchants, ReadHold(t));
                two.db == s.db && AllCoherent(Next(two, merchants, ReadPayer(t, now, eventId))))
  {
    hide Step, CommitTo;
  }

  lemma OtherStepCoherent(s: System, merchants: map<Id, MerchantStatus>, e: Turn)
    requires Keyed(s.db.ledger) && AllCoherent(s) && !e.ReadPayer?
    ensures AllCoherent(Next(s, merchants, e))
  {
    hide Step, CommitTo;
  }

  lemma HistorySnoc(merchants: map<Id, MerchantStatus>, turns: seq<Turn>, e: Turn)
    ensures History(merchants, turns + [e]) ==
            var s := History(merchants, turns); if Keyed(s.db.ledger) then Next(s, merchants, e) else s
  {
    assert (turns + [e])[..|turns|] == turns;
  }

  lemma InstantCoherent(merchants: map<Id, MerchantStatus>, turns: seq<Turn>, n: nat)
    requires n == |turns| - 1 && turns[n].ReadPayer? && OneInstant(merchants, turns, n)
    requires AllCoherent(History(merchants, turns[..n - 2]))
    ensures AllCoherent(History(merchants, turns))
  {
    hide History, Next, AllCoherent;
    var e := turns[n];
    var s := History(merchants, turns[..n - 2]);
    assert turns == turns[..n - 2] + [turns[n - 2]] + [turns[n - 1]] + [e];
    HistorySnoc(merchants, turns[..n - 2], turns[n - 2]);
    HistorySnoc(merchants, turns[..n - 2] + [turns[n - 2]], turns[n - 1]);
    HistorySnoc(merchants, turns[..n - 2] + [turns[n - 2]] + [turns[n - 1]], e);
    if Keyed(s.db.ledger) {
      ReadsCoherent(s, merchants, e.t, turns[n - 2].paymentId, e.now, e.eventId);
    }
  }

  lemma TwoFewer(merchants: map<Id, MerchantStatus>, turns: seq<Turn>)
    requires |turns| >= 3 && Snapshots(merchants, turns)
    ensures Snapshots(merchants, turns[..|turns| - 3])
  {
    hide History, Snapshots;
    var n := |turns| - 1;
    SnapshotsPrefix(merchants, turns);
    assert turns[..n][..n - 1] == turns[..n - 1];
    SnapshotsPrefix(merchants, turns[..n]);
    assert turns[..n - 1][..n - 2] == turns[..n - 2];
    SnapshotsPrefix(merchants, turns[..n - 1]);
  }

  lemma {:induction false} SnapshotsCoherent(merchants: map<Id, MerchantStatus>, turns: seq<Turn>)
    requires Snapshots(merchants, turns)
    ensures AllCoherent(History(merchants, turns))
    decreases |turns|
  {
    hide Next, AllCoherent, OneInstant;
    if turns == [] {
      IdleCoherent();
    } else {
      var n := |turns| - 1;
      if turns[n].ReadPayer? {
        InstantBounds(merchants, turns, n);
        TwoFewer(merchants, turns);
        SnapshotsCoherent(merchants, turns[..n - 2]);
        InstantCoherent(merchants, turns, n);
      } else {
        SnapshotsPrefix(merchants, turns);
        SnapshotsCoherent(merchants, turns[..n]);
        if Keyed(History(merchants, turns[..n]).db.ledger) {
          OtherStepCoherent(History(merchants, turns[..n]), merchants, turns[n]);
        }
      }
    }
  }

  lemma InstantBounds(merchants: map<Id, MerchantStatus>, turns: seq<Turn>, i: nat)
    requires Snapshots(merchants, turns) && i < |turns| && turns[i].ReadPayer?
    ensures OneInstant(merchants, turns, i) && i >= 2
  {
    hide History;
    assert OneInstant(merchants, turns, i);
  }

  lemma IdleCoherent()
    ensures AllCoherent(IDLE)
  {}

  /** If each capture's reads are one instant, every interleaving is serializable. */
  lemma SnapshotsSerializable(merchants: map<Id, MerchantStatus>, turns: seq<Turn>)
    requires Snapshots(merchants, turns)
    ensures Untorn(merchants, turns)
    ensures History(merchants, turns).db == Run(merchants, Serial(merchants, turns))
            && DbInv(History(merchants, turns).db)
    decreases |turns|
  {
    hide History, Run, DbInv, AllCoherent;
    UntornIfCoherent(merchants, turns);
    Serializable(merchants, turns);
  }

  lemma {:induction false} UntornIfCoherent(merchants: map<Id, MerchantStatus>, turns: seq<Turn>)
    requires Snapshots(merchants, turns)
    ensures Untorn(merchants, turns)
    decreases |turns|
  {
    hide History, Untorn, Commits;
    if turns == [] {
      NoneTorn(merchants);
    } else {
      var n := |turns| - 1;
      SnapshotsPrefix(merchants, turns);
      UntornIfCoherent(merchants, turns[..n]);
      SnapshotsCoherent(merchants, turns[..n]);
      UntornPrefix(merchants, turns, n);
    }
  }

  // ----- what a torn capture does -----

  /** An authorized payment that may be captured now, of a payer whose holds are worth twice its amount. */
  ghost predicate Exposed(l: Ledger, p: Id, now: int) {
    && Inv(l) && p in l.payments && l.payments[p].status.Authorized? && now <= l.payments[p].expiresAt
    && l.payments[p].payerId in l.payers && l.payers[l.payments[p].payerId].held >= 2 * l.payments[p].amount
  }

  /** The capture that read payment and hold in l, and the payer only in m. */
  function Straddling(l: Ledger, m: Ledger, p: Id, now: int, eventId: Id): Open
    requires Readable(l, p) && l.payments[p].payerId in m.payers
  {
    OpenCapture(p, now, eventId, Receipt(l.payments[p], l.holds[l.holdOf[p]], m.payers[l.payments[p].payerId]),
                Stored(m, p, l.payments[p], l.holds[l.holdOf[p]]))
  }

  function AfterCapture(l: Ledger, p: Id, now: int, eventId: Id): Ledger
    requires Capture(l, p, now, eventId).Ok?
  {
    var r := Capture(l, p, now, eventId).value;
    Write(l, r, CapturedEvent(eventId, r, now))
  }

  lemma PayerSolvent(l: Ledger, p: Id)
    requires Inv(l) && p in l.payments
    ensures var q := l.payments[p];
            q.payerId in l.payers && q.currency == l.payers[q.payerId].currency && q.amount > 0
            && 0 <= l.payers[q.payerId].available && 0 <= l.payers[q.payerId].held
            && l.payers[q.payerId].available + l.payers[q.payerId].held <= MAX64
            && (q.status.Authorized? ==> l.holds[q.holdId].status == Held && l.holds[q.holdId].id == q.holdId)
            && l.holdOf[p] == q.holdId && q.id == p && l.payers[q.payerId].id == q.payerId
  {
    hide Inv;
    InvRows(l);
    InvHolds(l);
    InvBalanced(l);
    NoOverflow(l, l.payments[p].payerId);
    assert PaymentOk(p, l.payments[p]) && PayerOk(l.payments[p].payerId, l.payers[l.payments[p].payerId]);
    assert Paired(l.payments[p], l.holds[l.payments[p].holdId]);
  }

  /** Between its reads another capture of the payment commits: its amount leaves the held balance twice. */
  lemma TornCapture(l: Ledger, p: Id, now: int, a: Id, b: Id)
    requires Exposed(l, p, now) && FreshEvent(l, a) && FreshEvent(l, b) && a != b
    ensures Readable(l, p) && Capture(l, p, now, a).Ok? && l.payments[p].payerId in AfterCapture(l, p, now, a).payers
    ensures var q, m := l.payments[p], AfterCapture(l, p, now, a);
            var tx := Straddling(l, m, p, now, b);
            && Commits(m, tx) && !Coherent(tx) && q.payerId in CommitTo(m, tx).payers
            && CommitTo(m, tx).payers[q.payerId].held == l.payers[q.payerId].held - 2 * q.amount
            && CommitTo(m, tx).payers[q.payerId].available == l.payers[q.payerId].available
            && Count(CommitTo(m, tx).log, p, Exit) == Count(l.log, p, Exit) + 2
  {
    hide Inv;
    AllReadable(l, p);
    CaptureOrExpire(l, p, now, a);
    PayerSolvent(l, p);
    var m := AfterCapture(l, p, now, a);
    var n := CommitTo(m, Straddling(l, m, p, now, b));
    assert m.log[..|l.log|] == l.log && n.log[..|m.log|] == m.log;
  }

  function AfterExpiry(l: Ledger, p: Id, now: int, eventId: Id): Ledger
    requires p in l.payments && ExpireOne(l, l.payments[p], now, eventId).Ok?
  {
    var r := ExpireOne(l, l.payments[p], now, eventId).value;
    Write(l, r, ExpiredEvent(eventId, r, now))
  }

  /** An expiry in its place refunds the amount the capture then spends. */
  lemma TornByExpiry(l: Ledger, p: Id, now: int, a: Id, b: Id)
    requires Exposed(l, p, now) && FreshEvent(l, a) && FreshEvent(l, b) && a != b
    ensures Readable(l, p) && ExpireOne(l, l.payments[p], now, a).Ok?
            && l.payments[p].payerId in AfterExpiry(l, p, now, a).payers
    ensures var q, m := l.payments[p], AfterExpiry(l, p, now, a);
            var tx := Straddling(l, m, p, now, b);
            && Commits(m, tx) && !Coherent(tx) && q.payerId in CommitTo(m, tx).payers && p in CommitTo(m, tx).payments
            && CommitTo(m, tx).payers[q.payerId].held == l.payers[q.payerId].held - 2 * q.amount
            && CommitTo(m, tx).payers[q.payerId].available == l.payers[q.payerId].available + q.amount
            && CommitTo(m, tx).payments[p].status.Captured?
  {
    hide Inv;
    AllReadable(l, p);
    CaptureOrExpire(l, p, now, a);
    PayerSolvent(l, p);
  }

  // ----- a history in which it happens -----

  /** The five turns of a capture whose reads another capture straddles. */
  function Straddle(t: nat, p: Id, now: int, a: Id, b: Id): seq<Turn> {
    [ReadPayment(t, p), ReadHold(t), Whole(DoCapture(p, now, a)), ReadPayer(t, now, b), Commit(t)]
  }

  lemma PaymentTurn(s: System, merchants: map<Id, MerchantStatus>, t: nat, p: Id)
    requires Keyed(s.db.ledger) && t !in s.open && p in s.db.ledger.payments
    ensures Next(s, merchants, ReadPayment(t, p)) == Put(s, t, PaymentRead(p, s.db.ledger.payments[p]))
  {}

  lemma HoldTurn(s: System, merchants: map<Id, MerchantStatus>, t: nat, p: Id, q: Payment)
    requires Keyed(s.db.ledger) && q.id == p && HasHold(s.db.ledger, p)
    ensures Put(s, t, PaymentRead(p, q)).db == s.db
    ensures Next(Put(s, t, PaymentRead(p, q)), merchants, ReadHold(t))
         == Put(s, t, HoldRead(p, q, s.db.ledger.holds[s.db.ledger.holdOf[p]]))
  {}

  lemma CaptureTurn(s: System, merchants: map<Id, MerchantStatus>, t: nat, tx: Open, p: Id, now: int, a: Id)
    requires Keyed(s.db.ledger) && Capture(s.db.ledger, p, now, a).Ok?
    ensures Put(s, t, tx).db == s.db
    ensures Next(Put(s, t, tx), merchants, Whole(DoCapture(p, now, a)))
         == Put(System(s.db.(ledger := AfterCapture(s.db.ledger, p, now, a)), s.open), t, tx)
  {
    hide Capture, Write;
  }

  lemma PayerTurn(s: System, merchants: map<Id, MerchantStatus>, t: nat, l: Ledger, p: Id, now: int, b: Id)
    requires Keyed(s.db.ledger) && Readable(l, p) && l.payments[p].payerId in s.db.ledger.payers
    ensures var tx := HoldRead(p, l.payments[p], l.holds[l.holdOf[p]]);
            && Put(s, t, tx).db == s.db
            && Next(Put(s, t, tx), merchants, ReadPayer(t, now, b)) == Put(s, t, Straddling(l, s.db.ledger, p, now, b))
  {}

  /** The five turns end in the straddling capture's commit. */
  lemma StraddleRuns(s: System, merchants: map<Id, MerchantStatus>, t: nat, p: Id, now: int, a: Id, b: Id, l: Ledger,
                     m: Ledger)
    requires l == s.db.ledger && Keyed(l) && t !in s.open && Readable(l, p) && l.payments[p].id == p
    requires Capture(l, p, now, a).Ok? && m == AfterCapture(l, p, now, a) && Keyed(m)
            && l.payments[p].payerId in m.payers
    ensures var one := Next(s, merchants, ReadPayment(t, p));
            && Keyed(one.db.ledger)
            && var two := Next(one, merchants, ReadHold(t));
            && Keyed(two.db.ledger)
            && var three := Next(two, merchants, Whole(DoCapture(p, now, a)));
            && Keyed(three.db.ledger)
            && var four := Next(three, merchants, ReadPayer(t, now, b));
            && Keyed(four.db.ledger)
            && Next(four, merchants, Commit(t)).db.ledger == CommitTo(m, Straddling(l, m, p, now, b))
  {
    var q, h := l.payments[p], l.holds[l.holdOf[p]];
    var after := System(s.db.(ledger := m), s.open);
    hide Next, Keyed, Put, Capture, AfterCapture, CommitTo, Straddling;
    PaymentTurn(s, merchants, t, p);
    HoldTurn(s, merchants, t, p, q);
    CaptureTurn(s, merchants, t, HoldRead(p, q, h), p, now, a);
    PayerTurn(after, merchants, t, l, p, now, b);
    StraddlingReady(l, m, p, now, b);
    CommitPut(after, merchants, t, Straddling(l, m, p, now, b));
  }

  lemma StraddlingReady(l: Ledger, m: Ledger, p: Id, now: int, b: Id)
    requires Readable(l, p) && l.payments[p].payerId in m.payers
    ensures Ready(Straddling(l, m, p, now, b))
  {}

  lemma StraddleHistory(merchants: map<Id, MerchantStatus>, turns: seq<Turn>, t: nat, p: Id, now: int, a: Id, b: Id,
                        s: System, m: Ledger)
    requires s == History(merchants, turns) && Keyed(s.db.ledger) && t !in s.open
    requires Readable(s.db.ledger, p) && s.db.ledger.payments[p].id == p
    requires Capture(s.db.ledger, p, now, a).Ok? && m == AfterCapture(s.db.ledger, p, now, a) && Keyed(m)
    requires s.db.ledger.payments[p].payerId in m.payers
    ensures History(merchants, turns + Straddle(t, p, now, a, b)).db.ledger
         == CommitTo(m, Straddling(s.db.ledger, m, p, now, b))
  {
    hide Next, Keyed, Capture, AfterCapture, CommitTo, Straddling, History;
    StraddleRuns(s, merchants, t, p, now, a, b, s.db.ledger, m);
    var one := turns + [ReadPayment(t, p)];
    var two := one + [ReadHold(t)];
    var three := two + [Whole(DoCapture(p, now, a))];
    var four := three + [ReadPayer(t, now, b)];
    assert turns + Straddle(t, p, now, a, b) == four + [Commit(t)];
    HistorySnoc(merchants, turns, ReadPayment(t, p));
    HistorySnoc(merchants, one, ReadHold(t));
    HistorySnoc(merchants, two, Whole(DoCapture(p, now, a)));
    HistorySnoc(merchants, three, ReadPayer(t, now, b));
    HistorySnoc(merchants, four, Commit(t));
    StraddlingReady(s.db.ledger, m, p, now, b);
  }

  lemma CaptureKeyed(l: Ledger, p: Id, now: int, eventId: Id)
    requires Keyed(l) && Capture(l, p, now, eventId).Ok?
    ensures Keyed(AfterCapture(l, p, now, eventId))
  {}

  lemma CommitPut(s: System, merchants: map<Id, MerchantStatus>, t: nat, tx: Open)
    requires Keyed(s.db.ledger) && Ready(tx)
    ensures Next(Put(s, t, tx), merchants, Commit(t)).db.ledger == CommitTo(s.db.ledger, tx)
    ensures Put(s, t, tx).db == s.db
  {}

  /** Two exits of one hold cannot be a good ledger. */
  lemma TwoExits(l: Ledger, p: Id)
    requires Count(l.log, p, Exit) >= 2
    ensures !Inv(l)
  {
    hide Structural, Balanced, Replayed;
    assert Logged(l) ==> Count(l.log, p, Exit) == Expected(l.payments, p, Exit);
  }

  /**
    The failing history: from any serializable history whose payer's holds are worth twice the payment,
    five turns take the payment's amount from the held balance twice and announce its capture twice.
   */
  lemma TornHistory(merchants: map<Id, MerchantStatus>, turns: seq<Turn>, t: nat, p: Id, now: int, a: Id, b: Id)
    requires var s := History(merchants, turns);
             && Untorn(merchants, turns) && t !in s.open && Exposed(s.db.ledger, p, now)
             && FreshEvent(s.db.ledger, a) && FreshEvent(s.db.ledger, b) && a != b
    ensures var l, n := History(merchants, turns).db.ledger,
            History(merchants, turns + Straddle(t, p, now, a, b)).db.ledger;
            && p in l.payments && l.payments[p].payerId in l.payers && l.payments[p].payerId in n.payers
            && n.payers[l.payments[p].payerId].held == l.payers[l.payments[p].payerId].held - 2 * l.payments[p].amount
            && Count(n.log, p, Exit) == 2 && !Inv(n)
  {
    hide History, Untorn, AllVouched, Inv, SettleInv, Keyed, Capture, AfterCapture, CommitTo, Straddling, FreshEvent;
    Serializable(merchants, turns);
    var s := History(merchants, turns);
    var l := s.db.ledger;
    TornCapture(l, p, now, a, b);
    AllReadable(l, p);
    CaptureKeyed(l, p, now, a);
    StraddleHistory(merchants, turns, t, p, now, a, b, s, AfterCapture(l, p, now, a));
    NoExitYet(l, p);
    TwoExits(History(merchants, turns + Straddle(t, p, now, a, b)).db.ledger, p);
  }

  lemma NoExitYet(l: Ledger, p: Id)
    requires Inv(l) && p in l.payments && l.payments[p].status.Authorized?
    ensures Count(l.log, p, Exit) == 0
  {
    hide Structural, Balanced, Replayed;
    assert Count(l.log, p, Exit) == Expected(l.payments, p, Exit);
  }

  // ----- a concrete one -----

  lemma WholeTurns(actions: seq<Action>)
    ensures var turns := seq(|actions|, i requires 0 <= i < |actions| => Whole(actions[i]));
            Untorn(MERCHANTS, turns)
  {
    hide History;
  }

  predicate Doubled(l: Ledger, p: Id) {
    && p in l.payments && l.payments[p].status.Authorized? && l.payments[p].expiresAt >= 0
    && l.payments[p].payerId == "payer" && l.payments[p].amount == 1 && Purse(l, 0, 2)
  }

  /** Two authorizations of 1 leave the first exposed. */
  lemma TwoAuthorized()
    ensures Keyed(EMPTY.ledger)
    ensures var l := LedgerStep(EMPTY.ledger, MERCHANTS, Opening());
            && Keyed(l)
            && var one := LedgerStep(l, MERCHANTS, Paying("p", "h", "e"));
            && Keyed(one)
            && var two := LedgerStep(one, MERCHANTS, Paying("q", "i", "f"));
            && Keyed(two) && Doubled(two, "p") && FreshEvent(two, "a") && FreshEvent(two, "b")
  {
    OpeningWorks();
    var l := LedgerStep(EMPTY.ledger, MERCHANTS, Opening());
    assert forall x :: FreshEvent(l, x);
    hide LedgerStep, Keyed, FreshEvent, Opening, Paying;
    PaidTwice(l, LedgerStep(l, MERCHANTS, Paying("p", "h", "e")));
  }

  lemma PaidTwice(l: Ledger, one: Ledger)
    requires Keyed(l) && Purse(l, 2, 0) && l.payments == map[] && l.holds == map[] && l.holdOf == map[]
    requires forall x :: FreshEvent(l, x)
    requires one == LedgerStep(l, MERCHANTS, Paying("p", "h", "e"))
    ensures Keyed(one)
    ensures var two := LedgerStep(one, MERCHANTS, Paying("q", "i", "f"));
            Keyed(two) && Doubled(two, "p") && FreshEvent(two, "a") && FreshEvent(two, "b")
  {
    hide LedgerStep, Keyed, FreshEvent, Paying, Purse;
    PayingWorks(l, "p", "h", "e", 2, 0);
    PayingWorks(one, "q", "i", "f", 1, 1);
  }

  lemma ThreeTurns(a: Action, b: Action, c: Action, l: Ledger, m: Ledger, n: Ledger)
    requires Keyed(EMPTY.ledger) && l == LedgerStep(EMPTY.ledger, MERCHANTS, a) && Keyed(l)
    requires m == LedgerStep(l, MERCHANTS, b) && Keyed(m) && n == LedgerStep(m, MERCHANTS, c) && Keyed(n)
    requires IsLedgerAction(a) && IsLedgerAction(b) && IsLedgerAction(c)
    ensures History(MERCHANTS, [Whole(a), Whole(b), Whole(c)]) == System(EMPTY.(ledger := n), map[])
  {
    assert [Whole(a)] == [] + [Whole(a)] && [Whole(a), Whole(b)] == [Whole(a)] + [Whole(b)];
    assert [Whole(a), Whole(b), Whole(c)] == [Whole(a), Whole(b)] + [Whole(c)];
    assert History(MERCHANTS, []) == IDLE == System(EMPTY.(ledger := EMPTY.ledger), map[]);
    hide History, LedgerStep, Keyed, IsLedgerAction;
    LedgerTurn([], a, EMPTY.ledger);
    LedgerTurn([Whole(a)], b, l);
    LedgerTurn([Whole(a), Whole(b)], c, m);
  }

  lemma LedgerTurn(turns: seq<Turn>, a: Action, l: Ledger)
    requires Keyed(l) && History(MERCHANTS, turns) == System(EMPTY.(ledger := l), map[]) && IsLedgerAction(a)
    ensures History(MERCHANTS, turns + [Whole(a)]) == System(EMPTY.(ledger := LedgerStep(l, MERCHANTS, a)), map[])
  {
    hide LedgerStep;
    HistorySnoc(MERCHANTS, turns, Whole(a));
    assert Step(EMPTY.(ledger := l), MERCHANTS, a) == EMPTY.(ledger := LedgerStep(l, MERCHANTS, a));
  }

  lemma TornFrom(turns: seq<Turn>, l: Ledger, p: Id, a: Id, b: Id)
    requires Untorn(MERCHANTS, turns) && History(MERCHANTS, turns) == System(EMPTY.(ledger := l), map[])
    requires Doubled(l, p) && FreshEvent(l, a) && FreshEvent(l, b) && a != b
    ensures var n := History(MERCHANTS, turns + Straddle(0, p, 0, a, b)).db.ledger;
            "payer" in n.payers && n.payers["payer"].held == 0 && !Inv(n)
  {
    hide Inv, SettleInv, Untorn, AllVouched, FreshEvent, Keyed, Straddle, History, Run;
    Serializable(MERCHANTS, turns);
    TornHistory(MERCHANTS, turns, 0, p, 0, a, b);
  }

  /** A payer with two payments of 1 is enough: of the 2 held for both, eight turns leave nothing. */
  lemma TornExists()
    ensures var turns := [Whole(Opening()), Whole(Paying("p", "h", "e")), Whole(Paying("q", "i", "f"))]
                         + Straddle(0, "p", 0, "a", "b");
            var n := History(MERCHANTS, turns).db.ledger;
            "payer" in n.payers && n.payers["payer"].held == 0 && !Inv(n)
  {
    var actions := [Opening(), Paying("p", "h", "e"), Paying("q", "i", "f")];
    var turns := [Whole(actions[0]), Whole(actions[1]), Whole(actions[2])];
    assert turns == seq(3, i requires 0 <= i < 3 => Whole(actions[i]));
    WholeTurns(actions);
    TwoAuthorized();
    hide LedgerStep, Inv, Untorn, FreshEvent, Keyed, Doubled;
    var l := LedgerStep(EMPTY.ledger, MERCHANTS, actions[0]);
    var m := LedgerStep(l, MERCHANTS, actions[1]);
    ThreeTurns(actions[0], actions[1], actions[2], l, m, LedgerStep(m, MERCHANTS, actions[2]));
    hide History;
    TornFrom(turns, LedgerStep(m, MERCHANTS, actions[2]), "p", "a", "b");
  }
}
