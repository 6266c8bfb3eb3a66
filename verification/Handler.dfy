/** The payment endpoints: how an idempotency key guards a ledger transaction. */
module Handler {
  import opened Common
  import Entities
  import opened Tables = Ledger
  import PaymentService
  import Transactions
  import opened Idempotency

  datatype Reply = Reply(code: int, body: string)

  /** Answers given before, or in place of, the transaction. */
  datatype Refusal =
    | MethodNotAllowed | RouteNotFound | UnreadableBody | KeyRequired | InvalidJson | Declined(error: Idempotency.Error)

  type Outcome = Result<Receipt, Entities.Error>

  /** What the clock reads at the start, in the transaction, and at the completion; whether the cache answers. */
  datatype Instant = Instant(startAt: int, now: int, doneAt: int, readUp: bool, writeUp: bool)

  /** An HTTP request; reading its body may fail. */
  datatype Call = Call(key: string, verb: string, path: string, body: Option<string>)

  /** A request is turned away with a reply, or runs its transaction, under a key if keys are in use. */
  datatype Admission = Turned(reply: Reply) | Runs(key: Option<string>)

  class PaymentHandler {
    const payments: PaymentService.Service
    const guarded: bool  // whether the handler was given an idempotency service
    const idempotency: Idempotency.Service
    const paymentOf: string -> Id                  // the payment a path names; empty if the path names none
    const decode: string -> Option<AuthorizeInput>  // None if a body is not valid
    const digest: string -> string
    const refuse: Refusal -> Reply
    const authorized: Outcome -> Reply
    const captured: Outcome -> Reply

    constructor (payments: PaymentService.Service, guarded: bool, idempotency: Idempotency.Service,
                 paymentOf: string -> Id, decode: string -> Option<AuthorizeInput>, digest: string -> string,
                 refuse: Refusal -> Reply, authorized: Outcome -> Reply, captured: Outcome -> Reply)
      ensures this.payments == payments && this.guarded == guarded && this.idempotency == idempotency
      ensures this.paymentOf == paymentOf && this.decode == decode && this.digest == digest && this.refuse == refuse
      ensures this.authorized == authorized && this.captured == captured
    {
      this.payments, this.guarded, this.idempotency := payments, guarded, idempotency;
      this.paymentOf, this.decode, this.digest := paymentOf, decode, digest;
      this.refuse, this.authorized, this.captured := refuse, authorized, captured;
    }

    ghost function Records(): map<string, Record>
      reads idempotency.store
    {
      idempotency.store.records
    }

    ghost predicate Valid()
      reads payments.payers, payments.payments, payments.outbox, idempotency.store, idempotency.cache
    {
      && Tables.Keyed(payments.View()) && idempotency.Valid()
      && PlainHashes(Records()) && forall x :: Plain(digest(x))
    }

    function HashOf(call: Call): string {
      if call.body.None? then "" else digest(Preimage(Request(call.verb, call.path, call.body.value)))
    }

    function InputOf(call: Call): Option<AuthorizeInput> {
      if call.body.None? then None else decode(call.body.value)
    }

    /** The request can be read and, where keys are in use, brings a new one. */
    predicate MayRun(records: map<string, Record>, call: Call) {
      call.body.Some? && (guarded ==> call.key != "" && HashOf(call) != "" && call.key !in records)
    }

    /** The reply to a request that does not run its transaction, case by case. */
    predicate TurnsAway(records: map<string, Record>, call: Call, startAt: int, reply: Reply) {
      && (call.body == None ==> reply == refuse(UnreadableBody))
      && (call.body.Some? && guarded ==>
            var hash := digest(call.verb + "\n" + call.path + "\n" + call.body.value);
            && (call.key == "" ==> reply == refuse(KeyRequired))
            && (call.key != "" && hash == "" ==> reply == refuse(Declined(InvalidRequestHash)))
            && (call.key != "" && hash != "" && call.key in records ==>
                  var x := records[call.key];
                  var past := x.expiresAt != 0 && startAt > x.expiresAt;
                  && (past ==> reply == refuse(Declined(ExpiredKey)))
                  && (!past && x.hash != hash ==> reply == refuse(Declined(RequestHashMismatch)))
                  && (!past && x.hash == hash ==>
                        && (x.status == InProgress ==> reply == refuse(Declined(RequestInProgress)))
                        && (x.status == Failed ==> reply == refuse(Declined(InvalidStatus)))
                        && (x.status == Completed ==> reply == Reply(x.code, x.body)))))
    }

    /** The records with the key's record in the given state, as the request leaves it; without keys, as they were. */
    function WithRecord(records: map<string, Record>, call: Call, at: Instant, status: Status, reply: Reply, now: int)
      : map<string, Record>
    {
      if !guarded then records
      else
        var expiresAt := at.startAt + if idempotency.ttl <= 0 then 86_400_000_000_000 else idempotency.ttl;
        records[call.key := Record(call.key, HashOf(call), status, reply.code, reply.body, at.startAt, now, expiresAt)]
    }

    method Enter(call: Call, at: Instant) returns (a: Admission)
      requires Valid()
      modifies idempotency.store
      ensures Valid()
      ensures a.Runs? <==> MayRun(old(Records()), call)
      ensures a.Turned? ==> TurnsAway(old(Records()), call, at.startAt, a.reply) && Records() == old(Records())
      ensures a.Runs? ==>
                && a.key == (if guarded then Some(call.key) else None)
                && Records() == WithRecord(old(Records()), call, at, InProgress, Reply(0, ""), at.startAt)
    {
      hide Start, WithHit, Lookup, RecordsAfter;
      if call.body.None? {
        return Turned(refuse(UnreadableBody));
      }
      if !guarded {
        return Runs(None);
      }
      if call.key == "" {
        return Turned(refuse(KeyRequired));
      }
      assert Plain(HashOf(call));
      assert Preimage(Request(call.verb, call.path, call.body.value))
          == call.verb + "\n" + call.path + "\n" + call.body.value;
      var started := idempotency.StartRequest(call.key, HashOf(call), at.startAt, at.readUp);
      match started {
        case Err(e) => return Turned(refuse(Declined(e)));
        case Ok(result) =>
          if result.replay {
            return Turned(Reply(result.code, result.body));
          }
          return Runs(Some(result.record.key));
      }
    }

    /** Completes the request's record with the reply, if there is one; the deferred call's own error is dropped. */
    method Finish(key: Option<string>, call: Call, reply: Reply, at: Instant, ghost before: map<string, Record>)
      requires Valid() && key == if guarded then Some(call.key) else None
      requires Records() == WithRecord(before, call, at, InProgress, Reply(0, ""), at.startAt)
      modifies idempotency.store, idempotency.cache
      ensures Valid()
      ensures Records() == WithRecord(before, call, at, Completed, reply, at.doneAt)
    {
      if key.Some? {
        var _ := idempotency.CompleteRequest(key.value, reply.code, reply.body, at.doneAt, at.writeUp);
      }
    }

    /**
      The contract of a capture request. It runs the capture of the payment its path names only if it may, and
      its reply is then recorded under its key; any other request leaves the ledger and the records as they were.
     */
    ghost predicate Captures(call: Call, at: Instant, eventId: Id, reply: Reply, records: map<string, Record>,
                             l: Ledger, recordsAfter: map<string, Record>, after: Ledger) {
      var paymentId := paymentOf(call.path);
      && (call.verb != "POST" ==> reply == refuse(MethodNotAllowed))
      && (call.verb == "POST" && paymentId == "" ==> reply == refuse(RouteNotFound))
      && (call.verb == "POST" && paymentId != "" && !MayRun(records, call) ==>
            TurnsAway(records, call, at.startAt, reply))
      && (if call.verb == "POST" && paymentId != "" && MayRun(records, call) then
            var run := Capture(l, paymentId, at.now, eventId);
            && reply == captured(run)
            && recordsAfter == WithRecord(records, call, at, Completed, reply, at.doneAt)
            && after == if run.Ok? then Write(l, run.value, CapturedEvent(eventId, run.value, at.now)) else l
          else recordsAfter == records && after == l)
    }

    method HandleCapture(call: Call, at: Instant, eventId: Id) returns (reply: Reply)
      requires Valid()
      requires payments.transactor.Noop? ==> FreshEvent(payments.View(), eventId)
      modifies payments.payers`payers, payments.payments, payments.outbox, idempotency.store, idempotency.cache
      ensures Valid()
      ensures Captures(call, at, eventId, reply, old(Records()), old(payments.View()), Records(), payments.View())
    {
      hide Capture, Tables.Keyed, MayRun, TurnsAway, WithRecord, Write;
      if call.verb != "POST" {
        return refuse(MethodNotAllowed);
      }
      var paymentId := paymentOf(call.path);
      if paymentId == "" {
        return refuse(RouteNotFound);
      }
      var a := Enter(call, at);
      match a {
        case Turned(r) => reply := r;
        case Runs(key) =>
          var run := payments.CapturePayment(paymentId, at.now, eventId);
          CaptureStaysKeyed(old(payments.View()), paymentId, at.now, eventId);
          reply := captured(run);
          Finish(key, call, reply, at, old(Records()));
      }
    }

    /** As for a capture; a body that does not decode is answered without a transaction, and that answer recorded. */
    ghost predicate Authorizes(call: Call, at: Instant, draw: Draw, reply: Reply, records: map<string, Record>,
                               l: Ledger, recordsAfter: map<string, Record>, after: Ledger) {
      && (call.verb != "POST" ==> reply == refuse(MethodNotAllowed))
      && (call.verb == "POST" && !MayRun(records, call) ==> TurnsAway(records, call, at.startAt, reply))
      && (if call.verb == "POST" && MayRun(records, call) then
            && recordsAfter == WithRecord(records, call, at, Completed, reply, at.doneAt)
            && match decode(call.body.value)
               case None => reply == refuse(InvalidJson) && after == l
               case Some(input) =>
                 var run := Authorize(l, payments.merchants, input, at.now, draw);
                 && reply == authorized(run)
                 && after ==
                    if run.Ok? then Write(l, run.value, AuthorizedEvent(draw.eventId, run.value, at.now)) else l
          else recordsAfter == records && after == l)
    }

    method HandleAuthorize(call: Call, at: Instant, draw: Draw) returns (reply: Reply)
      requires Valid()
      requires payments.transactor.Noop? ==> Transactions.FreshIds(payments.View(), draw)
      modifies payments.payers`payers, payments.payments, payments.outbox, idempotency.store, idempotency.cache
      ensures Valid()
      ensures Authorizes(call, at, draw, reply, old(Records()), old(payments.View()), Records(), payments.View())
    {
      hide Authorize, Tables.Keyed, TurnsAway, WithRecord, Write;
      if call.verb != "POST" {
        return refuse(MethodNotAllowed);
      }
      var a := Enter(call, at);
      match a {
        case Turned(r) => reply := r;
        case Runs(key) =>
          var input := decode(call.body.value);
          if input.None? {
            reply := refuse(InvalidJson);
          } else {
            var run := payments.AuthorizePayment(input.value, at.now, draw);
            AuthorizeStaysKeyed(old(payments.View()), payments.merchants, input.value, at.now, draw);
            reply := authorized(run);
          }
          Finish(key, call, reply, at, old(Records()));
      }
    }
  }

  lemma CaptureStaysKeyed(l: Ledger, paymentId: Id, now: int, eventId: Id)
    requires Tables.Keyed(l)
    ensures var r := Capture(l, paymentId, now, eventId);
            r.Ok? ==> Tables.Keyed(Write(l, r.value, CapturedEvent(eventId, r.value, now)))
  {}

  lemma AuthorizeStaysKeyed(l: Ledger, merchants: map<Id, MerchantStatus>, input: AuthorizeInput, now: int, draw: Draw)
    requires Tables.Keyed(l)
    ensures var r := Authorize(l, merchants, input, now, draw);
            r.Ok? ==> Tables.Keyed(Write(l, r.value, AuthorizedEvent(draw.eventId, r.value, now)))
  {}

  /** A key's record, if there is one, has not expired. */
  predicate InTime(records: map<string, Record>, key: string, at: int) {
    key in records ==> records[key].expiresAt == 0 || at <= records[key].expiresAt
  }

  /** A turned-away request is turned away again, in the same words, while its key has not expired. */
  lemma TurnedAgain(handler: PaymentHandler, records: map<string, Record>, call: Call, at: int, first: Reply,
                    again: int, second: Reply)
    requires handler.guarded && !handler.MayRun(records, call) && at <= again && InTime(records, call.key, again)
    requires handler.TurnsAway(records, call, at, first) && handler.TurnsAway(records, call, again, second)
    ensures second == first
  {}

  /** A request that ran has its reply on record, for whoever repeats it before its key expires. */
  lemma RepliedFromRecord(handler: PaymentHandler, before: map<string, Record>, call: Call, at: Instant, first: Reply,
                          again: int, second: Reply)
    requires handler.guarded && handler.MayRun(before, call)
    requires var records := handler.WithRecord(before, call, at, Completed, first, at.doneAt);
             && InTime(records, call.key, again)
             && (!handler.MayRun(records, call) ==> handler.TurnsAway(records, call, again, second))
    ensures !handler.MayRun(handler.WithRecord(before, call, at, Completed, first, at.doneAt), call)
    ensures second == first
  {
    assert Preimage(Request(call.verb, call.path, call.body.value))
        == call.verb + "\n" + call.path + "\n" + call.body.value;
  }

  /**
    The same capture request twice. Where keys are in use and the key has not expired in between, the second
    gets the reply of the first, whatever that was, and leaves ledger and records as the first left them.
   */
  lemma CaptureTwice(handler: PaymentHandler, call: Call, at: Instant, eventId: Id, first: Reply,
                     records: map<string, Record>, l: Ledger, recordsThen: map<string, Record>, between: Ledger,
                     again: Instant, otherId: Id, second: Reply, recordsAfter: map<string, Record>, after: Ledger)
    requires handler.guarded && at.startAt <= again.startAt && InTime(recordsThen, call.key, again.startAt)
    requires handler.Captures(call, at, eventId, first, records, l, recordsThen, between)
    requires handler.Captures(call, again, otherId, second, recordsThen, between, recordsAfter, after)
    ensures second == first && recordsAfter == recordsThen && after == between
  {
    hide Capture, Write, Tables.Keyed;
    if call.verb == "POST" && handler.paymentOf(call.path) != "" {
      if handler.MayRun(records, call) {
        RepliedFromRecord(handler, records, call, at, first, again.startAt, second);
      } else {
        TurnedAgain(handler, records, call, at.startAt, first, again.startAt, second);
      }
    }
  }

  /** The same authorization request twice, likewise: it never sets money aside again. */
  lemma AuthorizeTwice(handler: PaymentHandler, call: Call, at: Instant, draw: Draw, first: Reply,
                       records: map<string, Record>, l: Ledger, recordsThen: map<string, Record>, between: Ledger,
                       again: Instant, other: Draw, second: Reply, recordsAfter: map<string, Record>, after: Ledger)
    requires handler.guarded && at.startAt <= again.startAt && InTime(recordsThen, call.key, again.startAt)
    requires handler.Authorizes(call, at, draw, first, records, l, recordsThen, between)
    requires handler.Authorizes(call, again, other, second, recordsThen, between, recordsAfter, after)
    ensures second == first && recordsAfter == recordsThen && after == between
  {
    hide Authorize, Write, Tables.Keyed;
    if call.verb == "POST" {
      if handler.MayRun(records, call) {
        RepliedFromRecord(handler, records, call, at, first, again.startAt, second);
      } else {
        TurnedAgain(handler, records, call, at.startAt, first, again.startAt, second);
      }
    }
  }

  /**
    A key never answers for another payment: capture requests whose digests agree, and are told apart
    whenever their preimages differ, name the same payment.
   */
  lemma SamePayment(handler: PaymentHandler, a: Call, b: Call)
    requires a.body.Some? && b.body.Some? && handler.HashOf(a) == handler.HashOf(b)
    requires OneLine(a.verb) && OneLine(a.path) && OneLine(b.verb) && OneLine(b.path)
    requires var p := Preimage(Request(a.verb, a.path, a.body.value));
             var q := Preimage(Request(b.verb, b.path, b.body.value));
             p != q ==> handler.digest(p) != handler.digest(q)
    ensures handler.paymentOf(a.path) == handler.paymentOf(b.path) && handler.InputOf(a) == handler.InputOf(b)
  {
    PreimageInjective(Request(a.verb, a.path, a.body.value), Request(b.verb, b.path, b.body.value));
  }
}
