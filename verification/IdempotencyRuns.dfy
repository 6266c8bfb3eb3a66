/** Concurrent HTTP requests under idempotency keys, crashing at any moment, over the ledger they change. */
module IdempotencyRuns {
  import opened Common
  import Ledger
  import Settlement
  import SettlementInvariant
  import Web = Handler
  import opened Machine
  import opened Idempotency

  /** What a request asks for, once it has been decoded. */
  datatype Intent = Authorizing(input: Ledger.AuthorizeInput) | Capturing(paymentId: Id)

  /** What the endpoints are given: merchants, the cache's prefix, digest, decoding and rendering. */
  datatype Api = Api(
    merchants: map<Id, Ledger.MerchantStatus>, prefix: string, digest: string -> string,
    read: Request -> Option<Intent>, authorized: Web.Outcome -> Web.Reply, captured: Web.Outcome -> Web.Reply)
  {
    function Hash(q: Request): string {
      digest(Preimage(q))
    }

    function Outcome(db: Settlement.Db, intent: Intent, now: int, draw: Ledger.Draw): Web.Outcome {
      match intent
      case Authorizing(input) => Ledger.Authorize(db.ledger, merchants, input, now, draw)
      case Capturing(paymentId) => Ledger.Capture(db.ledger, paymentId, now, draw.eventId)
    }

    function Reply(intent: Intent, outcome: Web.Outcome): Web.Reply {
      if intent.Authorizing? then authorized(outcome) else captured(outcome)
    }
  }

  function ActionOf(intent: Intent, now: int, draw: Ledger.Draw): Action {
    match intent
    case Authorizing(input) => DoAuthorize(input, now, draw)
    case Capturing(paymentId) => DoCapture(paymentId, now, draw.eventId)
  }

  /** The one run of a key's transaction: which action of the history it was, and how it came out. */
  datatype Execution = Execution(at: nat, intent: Intent, now: int, draw: Ledger.Draw, outcome: Web.Outcome)

  /** Where a request's handler stands. */
  datatype Handler =
    | Owner(key: string)                                       // may run its transaction
    | Answering(key: string, code: int, body: string)          // knows the response
    | Caching(response: Response)                              // has completed its record
    | Reading(key: string, request: Request, now: int)         // found the key taken
    | Fetching(existing: Record, request: Request, now: int)   // read a completed record

  /** The response a request was given in place of running its transaction. */
  datatype Replay = Replay(key: string, request: Request, now: int, code: int, body: string)

  /** The database, the records and the cache; the live handlers; and histories of what happened. */
  datatype System = System(
    db: Settlement.Db, records: map<string, Record>, entries: map<string, Response>, handlers: map<nat, Handler>,
    asked: map<string, Request>, actions: seq<Action>, ran: map<string, Execution>,
    granted: multiset<string>, mutated: multiset<string>, completed: multiset<string>, replays: seq<Replay>)

  datatype Step =
    | Begin(h: nat, key: string, request: Request, now: int, ttl: int)
    | Read(h: nat)
    | Fetch(h: nat, up: bool)
    | Mutate(h: nat, now: int, draw: Ledger.Draw)
    | Refuse(h: nat, code: int, body: string)  // answered without a transaction: an undecodable body, a panic
    | Complete(h: nat, now: int)
    | Cache(h: nat, up: bool)
    | Crash(h: nat)
    | Lose(keys: set<string>)
    | Elsewhere(action: Action)  // workers, and calls without a key

  function Drop(s: System, h: nat): System {
    s.(handlers := s.handlers - {h})
  }

  function At(s: System, h: nat, next: Handler): System {
    s.(handlers := s.handlers[h := next])
  }

  function BeginNext(s: System, api: Api, step: Step): System
    requires step.Begin?
  {
    var record := NewRecord(step.key, api.Hash(step.request), step.now, step.ttl);
    if step.h in s.handlers || record.Err? then s
    else if step.key in s.records then At(s, step.h, Reading(step.key, step.request, step.now))
    else At(s, step.h, Owner(step.key))
         .(records := s.records[step.key := record.value], asked := s.asked[step.key := step.request],
           granted := s.granted + multiset{step.key})
  }

  function ReadNext(s: System, api: Api, h: nat): System {
    if h !in s.handlers || !s.handlers[h].Reading? || s.handlers[h].key !in s.records then s
    else
      var p := s.handlers[h];
      var answer := AnswerFrom(s.records[p.key], api.Hash(p.request), p.now);
      if answer.Err? then Drop(s, h) else At(s, h, Fetching(answer.value.record, p.request, p.now))
  }

  function FetchNext(s: System, api: Api, h: nat, up: bool): System {
    if h !in s.handlers || !s.handlers[h].Fetching? then s
    else
      var p := s.handlers[h];
      var x := p.existing;
      var hit := if up then Lookup(api.prefix, s.entries, x.key, x.hash) else None;
      var answer := WithHit(Ok(Started(x, true, x.code, x.body)), hit);
      if answer.Err? then s
      else Drop(s, h).(replays := s.replays + [Replay(x.key, p.request, p.now, answer.value.code, answer.value.body)])
  }

  /** Whether the handler owns a key whose request can be decoded. */
  predicate MayRun(s: System, api: Api, h: nat) {
    && h in s.handlers && s.handlers[h].Owner?
    && s.handlers[h].key in s.asked && api.read(s.asked[s.handlers[h].key]).Some?
  }

  function ExecutionOf(s: System, api: Api, h: nat, now: int, draw: Ledger.Draw): Execution
    requires MayRun(s, api, h)
  {
    var intent := api.read(s.asked[s.handlers[h].key]).value;
    Execution(|s.actions|, intent, now, draw, api.Outcome(s.db, intent, now, draw))
  }

  ghost function MutateNext(s: System, api: Api, h: nat, now: int, draw: Ledger.Draw): System
    requires Ledger.Keyed(s.db.ledger)
  {
    if !MayRun(s, api, h) then s
    else
      var key, x := s.handlers[h].key, ExecutionOf(s, api, h, now, draw);
      var reply := api.Reply(x.intent, x.outcome);
      At(s, h, Answering(key, reply.code, reply.body))
      .(db := Machine.Step(s.db, api.merchants, ActionOf(x.intent, now, draw)),
        actions := s.actions + [ActionOf(x.intent, now, draw)],
        ran := s.ran[key := x], mutated := s.mutated + multiset{key})
  }

  function RefuseNext(s: System, h: nat, code: int, body: string): System {
    if h !in s.handlers || !s.handlers[h].Owner? then s
    else At(s, h, Answering(s.handlers[h].key, code, body))
  }

  function CompleteNext(s: System, h: nat, now: int): System {
    if h !in s.handlers || !s.handlers[h].Answering? then s
    else
      var p := s.handlers[h];
      if p.key !in s.records || s.records[p.key].Complete(p.code, p.body, now).Err? then Drop(s, h)
      else
        var done := s.records[p.key].Complete(p.code, p.body, now).value;
        At(s, h, Caching(Response(p.key, done.hash, p.code, p.body)))
        .(records := s.records[p.key := done], completed := s.completed + multiset{p.key})
  }

  function CacheNext(s: System, api: Api, h: nat, up: bool): System {
    if h !in s.handlers || !s.handlers[h].Caching? then s
    else
      var x := s.handlers[h].response;
      Drop(s, h).(entries := if up then s.entries[CacheKey(api.prefix, x.key, x.hash) := x] else s.entries)
  }

  ghost function Next(s: System, api: Api,
                      step: Step): System
    requires Ledger.Keyed(s.db.ledger)
  {
    match step
    case Begin(_, _, _, _, _) => BeginNext(s, api, step)
    case Read(h) => ReadNext(s, api, h)
    case Fetch(h, up) => FetchNext(s, api, h, up)
    case Mutate(h, now, draw) => MutateNext(s, api, h, now, draw)
    case Refuse(h, code, body) => RefuseNext(s, h, code, body)
    case Complete(h, now) => CompleteNext(s, h, now)
    case Cache(h, up) => CacheNext(s, api, h, up)
    case Crash(h) => Drop(s, h)
    case Lose(keys) => s.(entries := s.entries - keys)
    case Elsewhere(action) => s.(db := Machine.Step(s.db, api.merchants, action), actions := s.actions + [action])
  }

  const FRESH: System :=
    System(EMPTY, map[], map[], map[], map[], [], map[], multiset{}, multiset{}, multiset{}, [])

  ghost function History(api: Api,
                         steps: seq<Step>): System {
    if steps == [] then FRESH
    else
      var before := History(api, steps[..|steps| - 1]);
      if Ledger.Keyed(before.db.ledger) then Next(before, api, steps[|steps| - 1]) else before
  }

  // ----- the invariant -----

  predicate OwnsKey(p: Handler, key: string) {
    (p.Owner? || p.Answering?) && p.key == key
  }

  /** The response is the rendering of the execution's outcome. */
  predicate Renders(api: Api, x: Execution, code: int, body: string) {
    api.Reply(x.intent, x.outcome) == Web.Reply(code, body)
  }

  /** A key's record against how often the key was granted, its transaction run, and its record completed. */
  ghost predicate KeyOk(s: System, api: Api, key: string) {
    && s.mutated[key] <= s.granted[key] <= 1 && s.completed[key] <= s.granted[key]
    && (s.granted[key] == 1 <==> key in s.records) && (s.mutated[key] == 1 <==> key in s.ran)
    && (key in s.records ==> RecordOk(s, api, key, s.records[key]))
  }

  predicate RecordOk(s: System, api: Api, key: string, r: Record) {
    && r.key == key && key != "" && r.hash != "" && !r.status.Failed?
    && (s.completed[key] == 1 <==> r.status.Completed?)
    && (r.status.Completed? && key in s.ran ==> Renders(api, s.ran[key], r.code, r.body))
  }

  ghost predicate HandlerOk(s: System, api: Api, p: Handler) {
    match p
    case Owner(key) => key in s.records && s.records[key].status.InProgress? && s.mutated[key] == 0
    case Answering(key, code, body) =>
      && key in s.records && s.records[key].status.InProgress?
      && (key in s.ran ==> Renders(api, s.ran[key], code, body))
    case Caching(x) => IsRecorded(s.records, x)
    case Reading(key, request, _) => key in s.records
    case Fetching(x, request, now) =>
      && x.key in s.records && s.records[x.key] == x && x.status.Completed?
      && !x.IsExpired(now) && x.hash == api.Hash(request)
  }

  ghost predicate OwnersApart(handlers: map<nat, Handler>) {
    forall g, h, key :: g in handlers && h in handlers && OwnsKey(handlers[g], key) && OwnsKey(handlers[h], key)
                        ==> g == h
  }

  ghost predicate HandlersOk(s: System, api: Api) {
    forall h :: h in s.handlers ==> HandlerOk(s, api, s.handlers[h])
  }

  ghost predicate KeysOk(s: System, api: Api) {
    forall key: string :: KeyOk(s, api, key)
  }

  /** Each record's hash is that of the request the key was granted to. */
  ghost predicate AskedOk(s: System, api: Api) {
    forall key :: key in s.records ==> key in s.asked && s.records[key].hash == api.Hash(s.asked[key])
  }

  /** A replay gave what the completed record holds, to a request with the record's hash, before its expiry. */
  predicate ReplayOk(records: map<string, Record>, api: Api, x: Replay) {
    && x.key in records && records[x.key].status.Completed? && records[x.key].hash == api.Hash(x.request)
    && records[x.key].code == x.code && records[x.key].body == x.body && !records[x.key].IsExpired(x.now)
  }

  ghost predicate ReplaysOk(s: System, api: Api) {
    forall x :: x in s.replays ==> ReplayOk(s.records, api, x)
  }

  ghost predicate SysInv(s: System, api: Api) {
    && KeysOk(s, api) && HandlersOk(s, api) && OwnersApart(s.handlers) && AskedOk(s, api)
    && ReplaysOk(s, api) && Mirrors(api.prefix, s.entries, s.records)
  }

  /** Digests are hexadecimal. */
  ghost predicate Hexadecimal(api: Api) {
    forall x :: Plain(api.digest(x))
  }

  // ----- steps that leave the records and their counts alone -----

  predicate SameBooks(s: System, out: System) {
    && out.records == s.records && out.asked == s.asked && out.ran == s.ran
    && out.granted == s.granted && out.mutated == s.mutated && out.completed == s.completed
  }

  lemma BooksKept(s: System, out: System, api: Api)
    requires KeysOk(s, api) && AskedOk(s, api) && SameBooks(s, out)
    ensures KeysOk(out, api) && AskedOk(out, api)
    ensures forall p :: HandlerOk(s, api, p) ==> HandlerOk(out, api, p)
  {
    forall key: string ensures KeyOk(out, api, key) {
      assert KeyOk(s, api, key);
    }
  }

  /** A handler that owns no key may be replaced by another, or go. */
  lemma QuietStep(s: System, out: System, api: Api, h: nat)
    requires SysInv(s, api) && SameBooks(s, out)
    requires out.handlers == s.handlers - {h} ||
             (h in out.handlers && out.handlers == s.handlers[h := out.handlers[h]]
              && HandlerOk(s, api, out.handlers[h])
              && !out.handlers[h].Owner? && !out.handlers[h].Answering?)
    requires ReplaysOk(out, api) && Mirrors(api.prefix, out.entries, out.records)
    ensures SysInv(out, api)
  {
    BooksKept(s, out, api);
  }

  lemma ReadKeeps(s: System, api: Api, h: nat)
    requires SysInv(s, api)
    ensures SysInv(ReadNext(s, api, h), api)
  {
    if h in s.handlers && s.handlers[h].Reading? && s.handlers[h].key in s.records {
      assert HandlerOk(s, api, s.handlers[h]) && KeyOk(s, api, s.handlers[h].key);
      QuietStep(s, ReadNext(s, api, h), api, h);
    }
  }

  /** A fetched response is the completed record's, whether the cache answered or not. */
  lemma FetchedOk(s: System, api: Api, h: nat, up: bool)
    requires SysInv(s, api) && Hexadecimal(api) && h in s.handlers && s.handlers[h].Fetching?
    ensures ReplaysOk(FetchNext(s, api, h, up), api)
    ensures |FetchNext(s, api, h, up).replays| == |s.replays| + 1
  {
    var x := s.handlers[h].existing;
    assert HandlerOk(s, api, s.handlers[h]) && KeyOk(s, api, x.key);
    forall key | key in s.records ensures Plain(s.records[key].hash) {
      assert Plain(api.digest(Preimage(s.asked[key])));
    }
    HitIsRecorded(api.prefix, s.entries, s.records, x.key);
  }

  lemma FetchKeeps(s: System, api: Api, h: nat, up: bool)
    requires SysInv(s, api) && Hexadecimal(api)
    ensures SysInv(FetchNext(s, api, h, up), api)
  {
    if h in s.handlers && s.handlers[h].Fetching? {
      FetchedOk(s, api, h, up);
      QuietStep(s, FetchNext(s, api, h, up), api, h);
    }
  }

  lemma CacheKeeps(s: System, api: Api, h: nat, up: bool)
    requires SysInv(s, api)
    ensures SysInv(CacheNext(s, api, h, up), api)
  {
    if h in s.handlers && s.handlers[h].Caching? {
      assert HandlerOk(s, api, s.handlers[h]);
      QuietStep(s, CacheNext(s, api, h, up), api, h);
    }
  }

  lemma DropKeeps(s: System, api: Api, h: nat)
    requires SysInv(s, api)
    ensures SysInv(Drop(s, h), api)
  {
    QuietStep(s, Drop(s, h), api, h);
  }

  lemma ElsewhereKeeps(s: System, out: System, api: Api)
    requires SysInv(s, api) && SameBooks(s, out) && out.handlers == s.handlers && out.replays == s.replays
    requires Mirrors(api.prefix, out.entries, out.records)
    ensures SysInv(out, api)
  {
    BooksKept(s, out, api);
  }

  // ----- steps on one key -----

  /** Only the key's own record and counts change, and completed records never do. */
  ghost predicate OnlyKey(s: System, out: System, key: string) {
    && (forall k :: k != key ==> (k in s.records <==> k in out.records))
    && (forall k :: k != key ==> (k in s.ran <==> k in out.ran) && (k in s.ran ==> out.ran[k] == s.ran[k]))
    && (forall k :: k != key && k in s.records ==>
          out.records[k] == s.records[k] && k in s.asked && k in out.asked && out.asked[k] == s.asked[k])
    && (forall k :: k != key ==>
          out.granted[k] == s.granted[k] && out.mutated[k] == s.mutated[k] && out.completed[k] == s.completed[k])
    && (key in s.records ==> key in out.records && out.records[key].hash == s.records[key].hash
                             && (s.records[key].status.Completed? ==> out.records[key] == s.records[key]))
  }

  lemma OtherKeysKept(s: System, out: System, api: Api, key: string)
    requires KeysOk(s, api) && OnlyKey(s, out, key) && KeyOk(out, api, key)
    ensures KeysOk(out, api)
  {
    forall k: string ensures KeyOk(out, api, k) {
      assert KeyOk(s, api, k);
    }
  }

  lemma OtherHandlersKept(s: System, out: System, api: Api, key: string, p: Handler)
    requires KeysOk(s, api) && OnlyKey(s, out, key) && HandlerOk(s, api, p) && !OwnsKey(p, key)
    ensures HandlerOk(out, api, p)
  {}

  lemma RepliesKept(s: System, out: System, api: Api, key: string)
    requires OnlyKey(s, out, key) && ReplaysOk(s, api) && Mirrors(api.prefix, s.entries, s.records)
    requires out.replays == s.replays && out.entries == s.entries
    ensures ReplaysOk(out, api) && Mirrors(api.prefix, out.entries, out.records)
  {
    forall x | x in out.replays ensures ReplayOk(out.records, api, x) {
      assert ReplayOk(s.records, api, x);
    }
    MirrorsLater(api.prefix, s.entries, s.records, out.records);
  }

  /** A step of one handler on the key only it owns afterwards. */
  lemma KeyStep(s: System, out: System, api: Api, h: nat, key: string)
    requires SysInv(s, api) && OnlyKey(s, out, key) && KeyOk(out, api, key)
    requires h in out.handlers && out.handlers == s.handlers[h := out.handlers[h]]
            && HandlerOk(out, api, out.handlers[h])
    requires forall k :: OwnsKey(out.handlers[h], k) ==> k == key
    requires forall g :: g in s.handlers && g != h ==> !OwnsKey(s.handlers[g], key)
    requires key in out.asked && key in out.records && out.records[key].hash == api.Hash(out.asked[key])
    requires out.replays == s.replays && out.entries == s.entries
    ensures SysInv(out, api)
  {
    hide HandlerOk, KeyOk, Mirrors;
    OtherKeysKept(s, out, api, key);
    RepliesKept(s, out, api, key);
    forall g | g in out.handlers ensures HandlerOk(out, api, out.handlers[g]) {
      if g != h {
        OtherHandlersKept(s, out, api, key, s.handlers[g]);
      }
    }
  }

  lemma KeyKnown(s: System, api: Api, key: string)
    requires SysInv(s, api)
    ensures KeyOk(s, api, key)
    ensures key in s.records ==> key in s.asked && s.records[key].hash == api.Hash(s.asked[key])
    ensures forall k :: k in s.records ==> k in s.asked
    ensures key !in s.records ==> forall g :: g in s.handlers ==> !OwnsKey(s.handlers[g], key)
  {
    forall g | g in s.handlers && OwnsKey(s.handlers[g], key) ensures key in s.records {
      assert HandlerOk(s, api, s.handlers[g]);
    }
  }

  lemma OwnerKnown(s: System, api: Api, h: nat)
    requires SysInv(s, api) && h in s.handlers
    ensures HandlerOk(s, api, s.handlers[h])
    ensures s.handlers[h].Owner? || s.handlers[h].Answering? ==>
              forall g :: g in s.handlers && g != h ==> !OwnsKey(s.handlers[g], s.handlers[h].key)
  {
    assert s.handlers[h].Owner? || s.handlers[h].Answering? ==> OwnsKey(s.handlers[h], s.handlers[h].key);
  }

  lemma BeginKeeps(s: System, api: Api, step: Step)
    requires SysInv(s, api) && step.Begin?
    ensures SysInv(BeginNext(s, api, step), api)
  {
    hide SysInv;
    if step.h !in s.handlers && NewRecord(step.key, api.Hash(step.request), step.now, step.ttl).Ok? {
      if step.key in s.records {
        BeginTaken(s, api, step);
      } else {
        KeyKnown(s, api, step.key);
        KeyStep(s, BeginNext(s, api, step), api, step.h, step.key);
      }
    }
  }

  lemma BeginTaken(s: System, api: Api, step: Step)
    requires SysInv(s, api) && step.Begin? && step.key in s.records
    ensures SysInv(BeginNext(s, api, step), api)
  {
    if step.h !in s.handlers && NewRecord(step.key, api.Hash(step.request), step.now, step.ttl).Ok? {
      QuietStep(s, BeginNext(s, api, step), api, step.h);
    }
  }

  lemma MutateKeeps(s: System, api: Api, h: nat, now: int, draw: Ledger.Draw)
    requires SysInv(s, api) && Ledger.Keyed(s.db.ledger)
    ensures SysInv(MutateNext(s, api, h, now, draw), api)
  {
    hide Machine.Step, SysInv, Api.Outcome, Api.Reply, ActionOf;
    if MayRun(s, api, h) {
      KeyKnown(s, api, s.handlers[h].key);
      OwnerKnown(s, api, h);
      KeyStep(s, MutateNext(s, api, h, now, draw), api, h, s.handlers[h].key);
    }
  }

  lemma RefuseKeeps(s: System, api: Api, h: nat, code: int, body: string)
    requires SysInv(s, api)
    ensures SysInv(RefuseNext(s, h, code, body), api)
  {
    hide SysInv;
    if h in s.handlers && s.handlers[h].Owner? {
      KeyKnown(s, api, s.handlers[h].key);
      OwnerKnown(s, api, h);
      KeyStep(s, RefuseNext(s, h, code, body), api, h, s.handlers[h].key);
    }
  }

  lemma CompleteKeeps(s: System, api: Api, h: nat, now: int)
    requires SysInv(s, api)
    ensures SysInv(CompleteNext(s, h, now), api)
  {
    hide SysInv;
    if h in s.handlers && s.handlers[h].Answering? {
      KeyKnown(s, api, s.handlers[h].key);
      OwnerKnown(s, api, h);
      KeyStep(s, CompleteNext(s, h, now), api, h, s.handlers[h].key);
    }
  }

  lemma NextKeeps(s: System, api: Api, step: Step)
    requires SysInv(s, api) && Hexadecimal(api) && Ledger.Keyed(s.db.ledger)
    ensures SysInv(Next(s, api, step), api)
  {
    hide SysInv, Machine.Step, BeginNext, ReadNext, FetchNext, MutateNext, RefuseNext, CompleteNext, CacheNext;
    match step {
      case Begin(_, _, _, _, _) => BeginKeeps(s, api, step);
      case Read(h) => ReadKeeps(s, api, h);
      case Fetch(h, up) => FetchKeeps(s, api, h, up);
      case Mutate(h, now, draw) => MutateKeeps(s, api, h, now, draw);
      case Refuse(h, code, body) => RefuseKeeps(s, api, h, code, body);
      case Complete(h, now) => CompleteKeeps(s, api, h, now);
      case Cache(h, up) => CacheKeeps(s, api, h, up);
      case Crash(h) => DropKeeps(s, api, h);
      case Lose(keys) => OtherKeeps(s, Next(s, api, step), api, keys);
      case Elsewhere(_) =>
        assert s.entries - {} == s.entries;
        OtherKeeps(s, Next(s, api, step), api, {});
    }
  }

  lemma OtherKeeps(s: System, out: System, api: Api, keys: set<string>)
    requires SysInv(s, api) && out == s.(entries := s.entries - keys, db := out.db, actions := out.actions)
    ensures SysInv(out, api)
  {
    ElsewhereKeeps(s, out, api);
  }

  lemma {:induction false} HistoryInv(api: Api, steps: seq<Step>)
    requires Hexadecimal(api)
    ensures var s := History(api, steps);
            SysInv(s, api) && s.db == Run(api.merchants, s.actions) && Ledger.Keyed(s.db.ledger)
    decreases |steps|
  {
    hide SysInv, Next, Run;
    if steps == [] {
      FreshInv(api);
    } else {
      var n := |steps| - 1;
      HistoryInv(api, steps[..n]);
      var before := History(api, steps[..n]);
      NextKeeps(before, api, steps[n]);
      NextRuns(before, api, steps[n]);
    }
    ReachableInv(api.merchants, History(api, steps).actions);
  }

  lemma FreshInv(api: Api)
    ensures SysInv(FRESH, api) && FRESH.db == Run(api.merchants, FRESH.actions)
  {
    forall key: string ensures KeyOk(FRESH, api, key) {}
  }

  /** What no step but a mutation touches. */
  ghost predicate SameRuns(s: System, out: System) {
    out.db == s.db && out.actions == s.actions && out.ran == s.ran && out.mutated == s.mutated
  }

  lemma QuietReads(s: System, api: Api, step: Step)
    ensures step.Read? ==> SameRuns(s, ReadNext(s, api, step.h))
    ensures step.Fetch? ==> SameRuns(s, FetchNext(s, api, step.h, step.up))
  {}

  lemma QuietOwners(s: System, api: Api, step: Step)
    ensures step.Begin? ==> SameRuns(s, BeginNext(s, api, step))
    ensures step.Refuse? ==> SameRuns(s, RefuseNext(s, step.h, step.code, step.body))
  {}

  lemma QuietSteps(s: System, api: Api, step: Step)
    ensures step.Begin? ==> SameRuns(s, BeginNext(s, api, step))
    ensures step.Read? ==> SameRuns(s, ReadNext(s, api, step.h))
    ensures step.Fetch? ==> SameRuns(s, FetchNext(s, api, step.h, step.up))
    ensures step.Refuse? ==> SameRuns(s, RefuseNext(s, step.h, step.code, step.body))
    ensures step.Complete? ==> SameRuns(s, CompleteNext(s, step.h, step.now))
    ensures step.Cache? ==> SameRuns(s, CacheNext(s, api, step.h, step.up))
  {
    QuietReads(s, api, step);
    QuietOwners(s, api, step);
    hide BeginNext, ReadNext, FetchNext, RefuseNext;
  }

  /** The database changes by exactly the actions recorded, in their order. */
  lemma NextRuns(s: System, api: Api, step: Step)
    requires Ledger.Keyed(s.db.ledger) && s.db == Run(api.merchants, s.actions)
    ensures var out := Next(s, api, step); out.db == Run(api.merchants, out.actions)
  {
    hide Machine.Step, Api.Outcome, Api.Reply, ActionOf;
    hide BeginNext, ReadNext, FetchNext, RefuseNext, CompleteNext, CacheNext;
    QuietSteps(s, api, step);
    if step.Mutate? && MayRun(s, api, step.h) {
      var x := ExecutionOf(s, api, step.h, step.now, step.draw);
      RunNext(api, s.actions, ActionOf(x.intent, step.now, step.draw));
    } else if step.Elsewhere? {
      RunNext(api, s.actions, step.action);
    }
  }

  lemma RunNext(api: Api, actions: seq<Action>, a: Action)
    requires Ledger.Keyed(Run(api.merchants, actions).ledger)
    ensures Run(api.merchants, actions + [a]) == Machine.Step(Run(api.merchants, actions), api.merchants, a)
  {
    hide Machine.Step;
    assert (actions + [a])[..|actions|] == actions;
  }

  // ----- what every history promises -----

  /**
    Idempotent execution: at most one request ever owns a key, it runs its transaction at most once,
    and the key's record is completed at most once, with or without a transaction.
   */
  lemma ExecutedOnce(api: Api, steps: seq<Step>, key: string)
    requires Hexadecimal(api)
    ensures var s := History(api, steps);
            s.mutated[key] <= s.granted[key] <= 1 && s.completed[key] <= s.granted[key]
  {
    hide History;
    HistoryInv(api, steps);
    assert KeyOk(History(api, steps), api, key);
  }

  function ElsewhereCount(steps: seq<Step>): nat {
    if steps == [] then 0 else ElsewhereCount(steps[..|steps| - 1]) + if steps[|steps| - 1].Elsewhere? then 1 else 0
  }

  /**
    The ledger is that of running one action for each key's one execution and each keyless call, and
    nothing else: starting, refusing, replaying, completing, caching, crashing and losing entries leave it alone.
   */
  lemma {:induction false} LedgerUnderneath(api: Api, steps: seq<Step>)
    requires Hexadecimal(api)
    ensures var s := History(api, steps);
            && s.db == Run(api.merchants, s.actions) && SettlementInvariant.DbInv(s.db)
            && |s.actions| == |s.mutated| + ElsewhereCount(steps)
    decreases |steps|
  {
    hide SysInv, Machine.Step, Run, FRESH, SettlementInvariant.DbInv;
    HistoryInv(api, steps);
    ReachableInv(api.merchants, History(api, steps).actions);
    if steps == [] {
      assert History(api, steps) == FRESH;
      FreshCounts();
    } else {
      var n := |steps| - 1;
      LedgerUnderneath(api, steps[..n]);
      NextCounts(History(api, steps[..n]), api, steps[n]);
    }
  }

  lemma FreshCounts()
    ensures |FRESH.actions| == |FRESH.mutated| == 0
  {}

  lemma NextCounts(s: System, api: Api, step: Step)
    requires Ledger.Keyed(s.db.ledger)
    ensures var out := Next(s, api, step);
            |out.actions| - |out.mutated| == |s.actions| - |s.mutated| + if step.Elsewhere? then 1 else 0
  {
    hide Machine.Step, Api.Outcome, Api.Reply, ActionOf;
    hide BeginNext, ReadNext, FetchNext, RefuseNext, CompleteNext, CacheNext;
    QuietSteps(s, api, step);
  }

  /**
    A replay always gives the response stored for its key, before the key's expiry, to a request
    with the same digest: to the same request, if the digest tells the two requests apart.
   */
  lemma ReplaysFaithful(api: Api, steps: seq<Step>, x: Replay)
    requires Hexadecimal(api) && x in History(api, steps).replays
    ensures var s := History(api, steps);
            && x.key in s.records && s.records[x.key].status.Completed?
            && (s.records[x.key].expiresAt == 0 || x.now <= s.records[x.key].expiresAt)
            && s.records[x.key].code == x.code && s.records[x.key].body == x.body
            && x.key in s.asked && api.digest(Preimage(s.asked[x.key])) == api.digest(Preimage(x.request))
            && (var q := s.asked[x.key];
                (Preimage(q) != Preimage(x.request) ==> api.digest(Preimage(q)) != api.digest(Preimage(x.request)))
                && OneLine(q.verb) && OneLine(q.path) && OneLine(x.request.verb) && OneLine(x.request.path)
                ==> q == x.request)
  {
    hide History;
    HistoryInv(api, steps);
    var s := History(api, steps);
    assert ReplayOk(s.records, api, x);
    var q := s.asked[x.key];
    if OneLine(q.verb) && OneLine(q.path) && OneLine(x.request.verb) && OneLine(x.request.path) {
      PreimageInjective(q, x.request);
    }
  }

  /** Completed, or in progress with nobody left to complete it. */
  ghost predicate Fixed(s: System, key: string) {
    && key in s.records
    && (s.records[key].status.Completed? ||
        (s.records[key].status.InProgress? && forall h :: h in s.handlers ==> !OwnsKey(s.handlers[h], key)))
  }

  /** The key keeps its record and gains no owner. */
  ghost predicate Leaves(s: System, out: System, key: string) {
    && key in s.records && key in out.records && out.records[key] == s.records[key]
    && forall g :: g in out.handlers && OwnsKey(out.handlers[g], key) ==> g in s.handlers && OwnsKey(s.handlers[g], key)
  }

  lemma LeavesFixed(s: System, out: System, key: string)
    requires Fixed(s, key) && Leaves(s, out, key)
    ensures Fixed(out, key)
  {}

  lemma CompleteLeaves(s: System, api: Api, h: nat, now: int, key: string)
    requires SysInv(s, api) && Fixed(s, key)
    ensures Leaves(s, CompleteNext(s, h, now), key)
  {
    hide SysInv;
    if h in s.handlers && s.handlers[h].Answering? {
      OwnerKnown(s, api, h);
      assert OwnsKey(s.handlers[h], s.handlers[h].key);
    }
  }

  lemma BeginLeaves(s: System, api: Api, step: Step, key: string)
    requires step.Begin? && key in s.records
    ensures Leaves(s, BeginNext(s, api, step), key)
  {}

  lemma ReadLeaves(s: System, api: Api, h: nat, key: string)
    requires key in s.records
    ensures Leaves(s, ReadNext(s, api, h), key) && Leaves(s, Drop(s, h), key)
  {}

  lemma FetchLeaves(s: System, api: Api, h: nat, up: bool, key: string)
    requires key in s.records
    ensures Leaves(s, FetchNext(s, api, h, up), key)
  {}

  lemma CacheLeaves(s: System, api: Api, h: nat, up: bool, key: string)
    requires key in s.records
    ensures Leaves(s, CacheNext(s, api, h, up), key)
  {}

  lemma MutateLeaves(s: System, api: Api, h: nat, now: int, draw: Ledger.Draw, key: string)
    requires Ledger.Keyed(s.db.ledger) && key in s.records
    ensures Leaves(s, MutateNext(s, api, h, now, draw), key)
  {
    hide Machine.Step;
  }

  lemma RefuseLeaves(s: System, h: nat, code: int, body: string, key: string)
    requires key in s.records
    ensures Leaves(s, RefuseNext(s, h, code, body), key)
  {}

  lemma OwnerStepLeaves(s: System, api: Api, step: Step, key: string)
    requires SysInv(s, api) && Ledger.Keyed(s.db.ledger) && Fixed(s, key)
    requires step.Begin? || step.Mutate? || step.Refuse? || step.Complete?
    ensures Leaves(s, Next(s, api, step), key)
  {
    FixedKnown(s, key);
    hide SysInv, Fixed, Leaves, BeginNext, MutateNext, RefuseNext, CompleteNext, Ledger.Keyed;
    match step {
      case Begin(_, _, _, _, _) => BeginLeaves(s, api, step, key);
      case Mutate(h, now, draw) => MutateLeaves(s, api, h, now, draw, key);
      case Refuse(h, code, body) => RefuseLeaves(s, h, code, body, key);
      case Complete(h, now) => CompleteLeaves(s, api, h, now, key);
    }
  }

  lemma ReaderStepLeaves(s: System, api: Api, step: Step, key: string)
    requires Ledger.Keyed(s.db.ledger) && key in s.records && (step.Read? || step.Fetch? || step.Cache? || step.Crash?)
    ensures Leaves(s, Next(s, api, step), key)
  {
    hide Leaves, ReadNext, FetchNext, CacheNext, Drop;
    match step {
      case Read(h) => ReadLeaves(s, api, h, key);
      case Fetch(h, up) => FetchLeaves(s, api, h, up, key);
      case Cache(h, up) => CacheLeaves(s, api, h, up, key);
      case Crash(h) => ReadLeaves(s, api, h, key);
    }
  }

  lemma StepLeaves(s: System, api: Api, step: Step, key: string)
    requires SysInv(s, api) && Ledger.Keyed(s.db.ledger) && Fixed(s, key)
    ensures Leaves(s, Next(s, api, step), key)
  {
    FixedKnown(s, key);
    if step.Lose? || step.Elsewhere? {
      hide SysInv, Fixed, Leaves, Machine.Step;
      SameLeaves(s, Next(s, api, step), key);
    } else if step.Read? || step.Fetch? || step.Cache? || step.Crash? {
      hide *;
      ReaderStepLeaves(s, api, step, key);
    } else {
      hide *;
      OwnerStepLeaves(s, api, step, key);
    }
  }

  lemma FixedStep(s: System, api: Api, step: Step, key: string)
    requires SysInv(s, api) && Ledger.Keyed(s.db.ledger) && Fixed(s, key)
    ensures Fixed(Next(s, api, step), key)
    ensures Leaves(s, Next(s, api, step), key)
  {
    hide SysInv, Next;
    StepLeaves(s, api, step, key);
    LeavesFixed(s, Next(s, api, step), key);
  }

  lemma SameLeaves(s: System, out: System, key: string)
    requires key in s.records && out.records == s.records && out.handlers == s.handlers
    ensures Leaves(s, out, key)
  {}

  /**
    A completed record never changes again, so its key replays one response for ever. A record
    whose owner crashed stays in progress for ever: no later request completes or replays it.
   */
  lemma {:induction false} FixedForever(api: Api, steps: seq<Step>, i: nat, key: string)
    requires Hexadecimal(api) && i <= |steps| && Fixed(History(api, steps[..i]), key)
    ensures var earlier, later := History(api, steps[..i]), History(api, steps);
            key in earlier.records && key in later.records && later.records[key] == earlier.records[key]
    ensures Fixed(History(api, steps), key)
    decreases |steps|
  {
    hide SysInv, Next, Fixed, Run, Ledger.Keyed;
    FixedKnown(History(api, steps[..i]), key);
    if i == |steps| {
      assert steps[..i] == steps;
    } else {
      var n := |steps| - 1;
      assert steps[..n][..i] == steps[..i];
      var before := History(api, steps[..n]);
      HistoryInv(api, steps[..n]);
      FixedForever(api, steps[..n], i, key);
      FixedStep(before, api, steps[n], key);
    }
  }

  lemma FixedKnown(s: System, key: string)
    requires Fixed(s, key)
    ensures key in s.records
  {}
}
