/** Which keys can still be answered, and what their answers say. */
module IdempotencyAnswers {
  import opened Common
  import Ledger
  import Settlement
  import Web = Handler
  import opened Machine
  import opened Idempotency
  import opened IdempotencyRuns

  lemma Unfold(api: Api, steps: seq<Step>, step: Step)
    requires Ledger.Keyed(History(api, steps).db.ledger)
    ensures History(api, steps + [step]) == Next(History(api, steps), api, step)
  {
    hide Next;
    assert (steps + [step])[..|steps|] == steps;
  }

  // ----- a key's record over time -----

  /** The key keeps its hash and its expiry. */
  predicate Retains(s: System, out: System, key: string) {
    key in s.records ==>
      && key in out.records && out.records[key].hash == s.records[key].hash
      && out.records[key].expiresAt == s.records[key].expiresAt
  }

  lemma NextRetains(s: System, api: Api, step: Step, key: string)
    requires Ledger.Keyed(s.db.ledger)
    ensures Retains(s, Next(s, api, step), key)
  {
    hide Machine.Step, Api.Outcome, Api.Reply, ActionOf;
    hide ReadNext, FetchNext, CacheNext;
    ReadsRetain(s, api, step);
  }

  lemma ReadsRetain(s: System, api: Api, step: Step)
    ensures step.Read? ==> ReadNext(s, api, step.h).records == s.records
    ensures step.Fetch? ==> FetchNext(s, api, step.h, step.up).records == s.records
    ensures step.Cache? ==> CacheNext(s, api, step.h, step.up).records == s.records
  {}

  lemma {:induction false} LaterRetains(api: Api, steps: seq<Step>, more: seq<Step>, key: string)
    ensures Retains(History(api, steps), History(api, steps + more), key)
    decreases |more|
  {
    hide Next;
    if more == [] {
      assert steps + more == steps;
    } else {
      var n := |more| - 1;
      LaterRetains(api, steps, more[..n], key);
      assert (steps + more)[..|steps + more| - 1] == steps + more[..n];
      var before := History(api, steps + more[..n]);
      if Ledger.Keyed(before.db.ledger) {
        NextRetains(before, api, more[n], key);
      }
    }
  }

  lemma GrantedRecord(s: System, api: Api, h: nat, key: string, q: Request, now: int, ttl: int)
    requires h !in s.handlers && key !in s.records && key != "" && api.Hash(q) != ""
    ensures var out := BeginNext(s, api, Begin(h, key, q, now, ttl));
            && key in out.records && IsGrant(out.records[key], key, api.Hash(q), now, ttl)
            && h in out.handlers && out.handlers[h] == Owner(key)
  {}

  /** A granted key expires its time to live after the grant, a day if that is not positive, whatever happens later. */
  lemma GrantKept(api: Api, steps: seq<Step>, h: nat, key: string, q: Request, now: int, ttl: int, more: seq<Step>)
    requires Hexadecimal(api) && h !in History(api, steps).handlers && key !in History(api, steps).records
    requires key != "" && api.Hash(q) != ""
    ensures var s := History(api, steps + [Begin(h, key, q, now, ttl)] + more);
            && key in s.records && s.records[key].hash == api.Hash(q)
            && s.records[key].expiresAt == now + if ttl <= 0 then 86_400_000_000_000 else ttl
  {
    hide SysInv, History, BeginNext;
    HistoryInv(api, steps);
    GrantedRecord(History(api, steps), api, h, key, q, now, ttl);
    Unfold(api, steps, Begin(h, key, q, now, ttl));
    BeginIsNext(History(api, steps), api, Begin(h, key, q, now, ttl));
    LaterRetains(api, steps + [Begin(h, key, q, now, ttl)], more, key);
  }

  lemma BeginIsNext(s: System, api: Api, step: Step)
    requires Ledger.Keyed(s.db.ledger) && step.Begin?
    ensures Next(s, api, step) == BeginNext(s, api, step)
  {
    hide BeginNext;
  }

  // ----- which keys can be answered -----

  ghost predicate Owned(s: System, key: string) {
    exists h :: h in s.handlers && OwnsKey(s.handlers[h], key)
  }

  predicate IsCompleted(s: System, key: string) {
    key in s.records && s.records[key].status.Completed?
  }

  /** Some continuation completes the key. */
  ghost predicate CanComplete(api: Api, steps: seq<Step>, key: string) {
    exists more :: IsCompleted(History(api, steps + more), key)
  }

  ghost predicate Replays(s: System, key: string, q: Request, at: int) {
    exists x :: x in s.replays && x.key == key && x.request == q && x.now == at
  }

  /** Some continuation replays the key to the request, made at the given instant. */
  ghost predicate CanReplay(api: Api, steps: seq<Step>, key: string, q: Request, at: int) {
    exists more :: Replays(History(api, steps + more), key, q, at)
  }

  lemma RefuseAnswers(s: System, h: nat)
    requires h in s.handlers && s.handlers[h].Owner?
    ensures h in RefuseNext(s, h, 0, "").handlers
            && RefuseNext(s, h, 0, "").handlers[h] == Answering(s.handlers[h].key, 0, "")
  {}

  lemma AnswerCompletes(s: System, h: nat)
    requires h in s.handlers && s.handlers[h].Answering? && s.handlers[h].key in s.records
    requires s.records[s.handlers[h].key].status.InProgress?
    ensures IsCompleted(CompleteNext(s, h, 0), s.handlers[h].key)
  {}

  lemma AnsweringCompletes(api: Api, steps: seq<Step>, h: nat)
    requires Hexadecimal(api) && h in History(api, steps).handlers && History(api, steps).handlers[h].Answering?
    ensures IsCompleted(History(api, steps + [Complete(h, 0)]), History(api, steps).handlers[h].key)
  {
    hide SysInv, History, CompleteNext;
    HistoryInv(api, steps);
    OwnerKnown(History(api, steps), api, h);
    AnswerCompletes(History(api, steps), h);
    Unfold(api, steps, Complete(h, 0));
  }

  /** A live owner can finish, at the least by refusing. */
  lemma OwnedCompletes(api: Api, steps: seq<Step>, key: string)
    requires Hexadecimal(api) && Owned(History(api, steps), key)
    ensures CanComplete(api, steps, key)
  {
    hide SysInv, History, Next, RefuseNext;
    HistoryInv(api, steps);
    var s := History(api, steps);
    var h :| h in s.handlers && OwnsKey(s.handlers[h], key);
    if s.handlers[h].Answering? {
      AnsweringCompletes(api, steps, h);
      assert IsCompleted(History(api, steps + [Complete(h, 0)]), key);
    } else {
      RefuseAnswers(s, h);
      RefuseIsNext(s, api, h);
      Unfold(api, steps, Refuse(h, 0, ""));
      AnsweringCompletes(api, steps + [Refuse(h, 0, "")], h);
      assert steps + [Refuse(h, 0, "")] + [Complete(h, 0)] == steps + [Refuse(h, 0, ""), Complete(h, 0)];
      assert IsCompleted(History(api, steps + [Refuse(h, 0, ""), Complete(h, 0)]), key);
    }
  }

  lemma RefuseIsNext(s: System, api: Api, h: nat)
    requires Ledger.Keyed(s.db.ledger)
    ensures Next(s, api, Refuse(h, 0, "")) == RefuseNext(s, h, 0, "")
  {}

  lemma {:induction false} FreshHandler(busy: set<nat>) returns (w: nat)
    ensures forall v :: v in busy ==> v < w
  {
    w := 0;
    if v :| v in busy {
      var u := FreshHandler(busy - {v});
      w := if u > v then u else v + 1;
      forall x | x in busy ensures x < w {
        assert x == v || x in busy - {v};
      }
    }
  }

  /** What a request's three steps do when its key is completed. */
  lemma RetrySteps(s: System, api: Api, w: nat, key: string, q: Request, at: int)
    requires w !in s.handlers && IsCompleted(s, key) && RecordOk(s, api, key, s.records[key])
    requires s.records[key].hash == api.Hash(q) && !s.records[key].IsExpired(at)
    ensures var one := BeginNext(s, api, Begin(w, key, q, at, 0));
            && one == At(s, w, Reading(key, q, at))
            && var two := ReadNext(one, api, w);
            && two == At(s, w, Fetching(s.records[key], q, at))
            && Replays(FetchNext(two, api, w, false), key, q, at)
  {
    var r := s.records[key];
    var three := FetchNext(At(s, w, Fetching(r, q, at)), api, w, false);
    assert three.replays == s.replays + [Replay(key, q, at, r.code, r.body)];
    assert Replay(key, q, at, r.code, r.body) in three.replays;
  }

  /** A completed key is replayed to every request with its hash that comes in time. */
  lemma CompletedReplays(api: Api, steps: seq<Step>, key: string, q: Request, at: int)
    requires Hexadecimal(api) && IsCompleted(History(api, steps), key)
    requires History(api, steps).records[key].hash == api.Hash(q) && !History(api, steps).records[key].IsExpired(at)
    ensures exists more :: Replays(History(api, steps + more), key, q, at)
  {
    hide SysInv, History, Next, BeginNext, ReadNext, FetchNext, Run, Ledger.Keyed, OwnsKey;
    HistoryInv(api, steps);
    var s := History(api, steps);
    KeyKnown(s, api, key);
    var w := FreshHandler(s.handlers.Keys);
    RetrySteps(s, api, w, key, q, at);
    var one, two := steps + [Begin(w, key, q, at, 0)], steps + [Begin(w, key, q, at, 0)] + [Read(w)];
    RetryNexts(s, api, w, key, q, at);
    Unfold(api, steps, Begin(w, key, q, at, 0));
    Unfold(api, one, Read(w));
    Unfold(api, two, Fetch(w, false));
    var more := [Begin(w, key, q, at, 0), Read(w), Fetch(w, false)];
    assert steps + more == two + [Fetch(w, false)];
    assert Replays(History(api, steps + more), key, q, at);
  }

  lemma RetryNexts(s: System, api: Api, w: nat, key: string, q: Request, at: int)
    requires Ledger.Keyed(s.db.ledger)
    ensures Next(s, api, Begin(w, key, q, at, 0)) == BeginNext(s, api, Begin(w, key, q, at, 0))
    ensures forall p :: At(s, w, p).db == s.db
    ensures forall p :: Next(At(s, w, p), api, Read(w)) == ReadNext(At(s, w, p), api, w)
    ensures forall p :: Next(At(s, w, p), api, Fetch(w, false)) == FetchNext(At(s, w, p), api, w, false)
  {
    hide BeginNext, ReadNext, FetchNext;
  }

  lemma UnownedFixed(s: System, api: Api, key: string)
    requires SysInv(s, api) && key in s.records && !Owned(s, key)
    ensures Fixed(s, key)
  {
    hide SysInv;
    KeyKnown(s, api, key);
  }

  /**
    Which keys can be answered. A key that was granted can still be completed if and only if it is
    completed or a live handler owns it; and it can be replayed to a request if and only if, besides,
    the request has the key's hash and comes before the key's expiry.
   */
  lemma AnswerableExactly(api: Api, steps: seq<Step>, key: string, q: Request, at: int)
    requires Hexadecimal(api) && key in History(api, steps).records
    ensures CanComplete(api, steps, key) <==> IsCompleted(History(api, steps), key) || Owned(History(api, steps), key)
    ensures CanReplay(api, steps, key, q, at) <==>
            && CanComplete(api, steps, key) && History(api, steps).records[key].hash == api.Hash(q)
            && (var expiresAt := History(api, steps).records[key].expiresAt; expiresAt == 0 || at <= expiresAt)
  {
    CompletableExactly(api, steps, key);
    if CanReplay(api, steps, key, q, at) {
      ReplayNeeds(api, steps, key, q, at);
    }
    if CanComplete(api, steps, key) && History(api, steps).records[key].hash == api.Hash(q)
       && !History(api, steps).records[key].IsExpired(at)
    {
      ReplayFollows(api, steps, key, q, at);
    }
  }

  lemma CompletableExactly(api: Api, steps: seq<Step>, key: string)
    requires Hexadecimal(api) && key in History(api, steps).records
    ensures CanComplete(api, steps, key) <==> IsCompleted(History(api, steps), key) || Owned(History(api, steps), key)
  {
    hide SysInv, History, Fixed;
    HistoryInv(api, steps);
    var s := History(api, steps);
    if IsCompleted(s, key) {
      assert steps + [] == steps;
      assert IsCompleted(History(api, steps + []), key);
    } else if Owned(s, key) {
      OwnedCompletes(api, steps, key);
    } else {
      UnownedFixed(s, api, key);
      forall more: seq<Step> ensures !IsCompleted(History(api, steps + more), key) {
        assert (steps + more)[..|steps|] == steps;
        FixedForever(api, steps + more, |steps|, key);
      }
    }
  }

  lemma ReplayNeeds(api: Api, steps: seq<Step>, key: string, q: Request, at: int)
    requires Hexadecimal(api) && key in History(api, steps).records && CanReplay(api, steps, key, q, at)
    ensures CanComplete(api, steps, key)
    ensures History(api, steps).records[key].hash == api.Hash(q) && !History(api, steps).records[key].IsExpired(at)
  {
    hide SysInv, History;
    var more :| Replays(History(api, steps + more), key, q, at);
    var later := History(api, steps + more);
    var x :| x in later.replays && x.key == key && x.request == q && x.now == at;
    ReplaysFaithful(api, steps + more, x);
    LaterRetains(api, steps, more, key);
    HistoryInv(api, steps + more);
    KeyKnown(later, api, key);
    assert IsCompleted(History(api, steps + more), key);
  }

  lemma ReplayFollows(api: Api, steps: seq<Step>, key: string, q: Request, at: int)
    requires Hexadecimal(api) && key in History(api, steps).records && CanComplete(api, steps, key)
    requires History(api, steps).records[key].hash == api.Hash(q) && !History(api, steps).records[key].IsExpired(at)
    ensures CanReplay(api, steps, key, q, at)
  {
    hide History;
    var more :| IsCompleted(History(api, steps + more), key);
    LaterRetains(api, steps, more, key);
    CompletedReplays(api, steps + more, key, q, at);
    var last :| Replays(History(api, steps + more + last), key, q, at);
    assert steps + more + last == steps + (more + last);
    assert Replays(History(api, steps + (more + last)), key, q, at);
  }

  // ----- the crash between the ledger's commit and the completion -----

  /** A request that runs its transaction and crashes before completing its key. */
  function Lost(key: string, q: Request, now: int, ttl: int, at: int, draw: Ledger.Draw): seq<Step> {
    [Begin(0, key, q, now, ttl), Mutate(0, at, draw), Crash(0)]
  }

  lemma LostNexts(api: Api, key: string, q: Request, now: int, ttl: int, at: int, draw: Ledger.Draw)
    requires key != "" && api.Hash(q) != "" && Ledger.Keyed(FRESH.db.ledger)
    ensures var one := BeginNext(FRESH, api, Begin(0, key, q, now, ttl));
            && one.db == FRESH.db && Ledger.Keyed(one.db.ledger)
            && var two := MutateNext(one, api, 0, at, draw);
            && var three := Drop(two, 0);
            && three.handlers == map[] && key in three.records && three.records[key].status.InProgress?
            && (api.read(q).Some? ==> three.mutated[key] == 1 && |three.actions| == 1)
  {
    hide Machine.Step, Api.Outcome, Api.Reply, ActionOf;
  }

  /**
    The transaction has run, and no retry will ever hear of it: the record stays in progress, nothing
    completes it, and no request is ever answered from it.
   */
  lemma CrashSilencesKey(api: Api, key: string, q: Request, now: int, ttl: int, at: int, draw: Ledger.Draw,
                         retry: Request, retryAt: int)
    requires Hexadecimal(api) && key != "" && api.Hash(q) != ""
    ensures var steps := Lost(key, q, now, ttl, at, draw);
            var s := History(api, steps);
            && key in s.records && s.records[key].status.InProgress?
            && (api.read(q).Some? ==> s.mutated[key] == 1 && |s.actions| == 1)
            && !CanComplete(api, steps, key) && !CanReplay(api, steps, key, retry, retryAt)
  {
    hide SysInv, History, BeginNext, MutateNext, Drop, CanComplete, CanReplay;
    assert [] + [Begin(0, key, q, now, ttl)] == [Begin(0, key, q, now, ttl)];
    HistoryInv(api, []);
    Nothing(api);
    LostNexts(api, key, q, now, ttl, at, draw);
    var begin, mutate := Begin(0, key, q, now, ttl), Mutate(0, at, draw);
    assert [begin] + [mutate] == [begin, mutate] && [begin, mutate] + [Crash(0)] == Lost(key, q, now, ttl, at, draw);
    Unfold(api, [], begin);
    HistoryInv(api, [begin]);
    Unfold(api, [begin], mutate);
    HistoryInv(api, [begin, mutate]);
    Unfold(api, [begin, mutate], Crash(0));
    AnswerableExactly(api, Lost(key, q, now, ttl, at, draw), key, retry, retryAt);
  }

  lemma Nothing(api: Api)
    ensures History(api, []) == FRESH
  {}

  // ----- what an answer says -----

  /** The execution is that action of the history, of the request the key was granted to. */
  ghost predicate ExecutionOk(api: Api, s: System, key: string)
    requires key in s.ran
  {
    var x := s.ran[key];
    && x.at < |s.actions| && s.actions[x.at] == ActionOf(x.intent, x.now, x.draw)
    && key in s.asked && api.read(s.asked[key]) == Some(x.intent)
    && x.outcome == api.Outcome(Run(api.merchants, s.actions[..x.at]), x.intent, x.now, x.draw)
  }

  ghost predicate ExecutionsOk(api: Api, s: System) {
    forall key :: key in s.ran ==> ExecutionOk(api, s, key)
  }

  /** The actions so far stay, and so do the requests of keys that ran. */
  ghost predicate Extends(s: System, out: System) {
    && s.actions <= out.actions
    && (forall key :: key in s.ran ==> key in out.ran && out.ran[key] == s.ran[key])
    && (forall key :: key in s.ran && key in s.asked ==> key in out.asked && out.asked[key] == s.asked[key])
  }

  lemma ExecutionKept(api: Api, s: System, out: System, key: string)
    requires Extends(s, out) && key in s.ran && ExecutionOk(api, s, key)
    ensures key in out.ran && ExecutionOk(api, out, key)
  {
    hide Run, Api.Outcome, ActionOf;
    assert out.actions[..s.ran[key].at] == s.actions[..s.ran[key].at];
  }

  lemma RanAreRecorded(s: System, api: Api)
    requires SysInv(s, api)
    ensures forall key :: key in s.ran ==> key in s.records
    ensures forall h :: h in s.handlers && s.handlers[h].Owner? ==> s.handlers[h].key !in s.ran
  {
    forall key | key in s.ran ensures key in s.records {
      assert KeyOk(s, api, key);
    }
    forall h | h in s.handlers && s.handlers[h].Owner? ensures s.handlers[h].key !in s.ran {
      assert HandlerOk(s, api, s.handlers[h]) && KeyOk(s, api, s.handlers[h].key);
    }
  }

  lemma MutateExtends(s: System, api: Api, h: nat, now: int, draw: Ledger.Draw)
    requires Ledger.Keyed(s.db.ledger)
    requires forall g :: g in s.handlers && s.handlers[g].Owner? ==> s.handlers[g].key !in s.ran
    ensures Extends(s, MutateNext(s, api, h, now, draw))
    ensures !MayRun(s, api, h) ==> MutateNext(s, api, h, now, draw).ran == s.ran
  {
    hide Machine.Step, Api.Outcome, Api.Reply, ActionOf;
  }

  lemma OthersExtend(s: System, out: System)
    requires SameRuns(s, out)
    requires forall key :: key in s.asked && key in s.ran ==> key in out.asked && out.asked[key] == s.asked[key]
    ensures Extends(s, out) && out.ran == s.ran
  {}

  lemma NextExtends(s: System, api: Api, step: Step)
    requires SysInv(s, api) && Ledger.Keyed(s.db.ledger)
    ensures Extends(s, Next(s, api, step))
    ensures !(step.Mutate? && MayRun(s, api, step.h)) ==> Next(s, api, step).ran == s.ran
  {
    hide SysInv, SameRuns, Extends, MayRun, Machine.Step, Ledger.Keyed;
    hide BeginNext, ReadNext, FetchNext, MutateNext, RefuseNext, CompleteNext, CacheNext;
    RanAreRecorded(s, api);
    if step.Mutate? {
      MutateExtends(s, api, step.h, step.now, step.draw);
    } else if step.Elsewhere? || step.Crash? || step.Lose? {
      PlainExtends(s, api, step);
    } else {
      QuietSteps(s, api, step);
      AskedKept(s, api, step);
      OthersExtend(s, Next(s, api, step));
    }
  }

  lemma PlainExtends(s: System, api: Api, step: Step)
    requires Ledger.Keyed(s.db.ledger) && (step.Elsewhere? || step.Crash? || step.Lose?)
    ensures Extends(s, Next(s, api, step)) && Next(s, api, step).ran == s.ran
  {
    hide Machine.Step, Ledger.Keyed;
  }

  lemma AskedKeptReading(s: System, api: Api, step: Step)
    ensures step.Read? ==> ReadNext(s, api, step.h).asked == s.asked
    ensures step.Fetch? ==> FetchNext(s, api, step.h, step.up).asked == s.asked
    ensures step.Cache? ==> CacheNext(s, api, step.h, step.up).asked == s.asked
  {}

  lemma AskedKept(s: System, api: Api, step: Step)
    ensures step.Begin? ==> forall key :: key in s.asked && key in s.records ==>
              key in BeginNext(s, api, step).asked && BeginNext(s, api, step).asked[key] == s.asked[key]
    ensures step.Read? ==> ReadNext(s, api, step.h).asked == s.asked
    ensures step.Fetch? ==> FetchNext(s, api, step.h, step.up).asked == s.asked
    ensures step.Refuse? ==> RefuseNext(s, step.h, step.code, step.body).asked == s.asked
    ensures step.Complete? ==> CompleteNext(s, step.h, step.now).asked == s.asked
    ensures step.Cache? ==> CacheNext(s, api, step.h, step.up).asked == s.asked
  {
    AskedKeptReading(s, api, step);
    hide ReadNext, FetchNext, CacheNext;
  }

  lemma MutateExecutes(s: System, api: Api, h: nat, now: int, draw: Ledger.Draw)
    requires Ledger.Keyed(s.db.ledger) && MayRun(s, api, h) && s.db == Run(api.merchants, s.actions)
    ensures var out := MutateNext(s, api, h, now, draw);
            && out.ran.Keys == s.ran.Keys + {s.handlers[h].key} && ExecutionOk(api, out, s.handlers[h].key)
  {
    hide Machine.Step, Run, Api.Outcome, Api.Reply, ActionOf;
    var out := MutateNext(s, api, h, now, draw);
    assert out.actions[..|s.actions|] == s.actions;
  }

  lemma NextExecutions(s: System, api: Api, step: Step)
    requires SysInv(s, api) && Ledger.Keyed(s.db.ledger) && s.db == Run(api.merchants, s.actions)
    requires ExecutionsOk(api, s)
    ensures ExecutionsOk(api, Next(s, api, step))
  {
    NextExtends(s, api, step);
    var out := Next(s, api, step);
    if step.Mutate? && MayRun(s, api, step.h) {
      MutateExecutes(s, api, step.h, step.now, step.draw);
    }
    hide SysInv, Next, Extends, ExecutionOk, Run;
    forall key | key in out.ran ensures ExecutionOk(api, out, key) {
      if key in s.ran {
        ExecutionKept(api, s, out, key);
      }
    }
  }

  lemma {:induction false} HistoryExecutions(api: Api, steps: seq<Step>)
    requires Hexadecimal(api)
    ensures ExecutionsOk(api, History(api, steps))
    decreases |steps|
  {
    hide SysInv, Next, Run, ExecutionOk;
    if steps == [] {
      Nothing(api);
    } else {
      var n := |steps| - 1;
      HistoryInv(api, steps[..n]);
      HistoryExecutions(api, steps[..n]);
      NextExecutions(History(api, steps[..n]), api, steps[n]);
    }
  }

  /** What the execution did to the database is what its outcome says. */
  lemma OutcomeIsEffect(api: Api, db: Settlement.Db, intent: Intent, now: int, draw: Ledger.Draw)
    requires Ledger.Keyed(db.ledger)
    ensures var out := api.Outcome(db, intent, now, draw);
            Machine.Step(db, api.merchants, ActionOf(intent, now, draw)) ==
            if out.Err? then db
            else db.(ledger := Ledger.Write(db.ledger, out.value,
                                            if intent.Authorizing?
                                            then Ledger.AuthorizedEvent(draw.eventId, out.value, now)
                                            else Ledger.CapturedEvent(draw.eventId, out.value, now)))
  {}

  /**
    What a replay says. If the key's transaction was run, every replay is the rendering of the outcome of
    that one execution, of the request the key was granted to, at its place in the ledger's history.
   */
  lemma ReplayRendersExecution(api: Api, steps: seq<Step>, x: Replay)
    requires Hexadecimal(api) && x in History(api, steps).replays && x.key in History(api, steps).ran
    ensures var s := History(api, steps);
            && ExecutionOk(api, s, x.key) && s.mutated[x.key] == 1
            && Web.Reply(x.code, x.body) == api.Reply(s.ran[x.key].intent, s.ran[x.key].outcome)
  {
    hide History, SysInv, ExecutionOk, Run;
    HistoryInv(api, steps);
    HistoryExecutions(api, steps);
    ReplaysFaithful(api, steps, x);
    KeyKnown(History(api, steps), api, x.key);
  }
}
