/** Idempotent requests: a durable record per key, and a response cache in front of it. */
module Idempotency {
  import opened Common

  datatype Error =
    | InvalidKey | InvalidRequestHash | InvalidStatus
    | DuplicateKey | RecordNotFound | RequestHashMismatch | ExpiredKey | RequestInProgress

  datatype Status = InProgress | Completed | Failed

  const DAY: int := 24 * 60 * MINUTE

  datatype Record = Record(
    key: string, hash: string, status: Status, code: int, body: string,
    createdAt: int, updatedAt: int, expiresAt: int)
  {
    function Complete(code: int, body: string, now: int): Result<Record, Error> {
      if !status.InProgress? then Err(InvalidStatus)
      else Ok(this.(status := Completed, code := code, body := body, updatedAt := now))
    }

    /** Instant 0 is the zero time, which never expires. */
    predicate IsExpired(now: int) {
      expiresAt != 0 && now > expiresAt
    }
  }

  function NewRecord(key: string, hash: string, now: int, ttl: int): Result<Record, Error> {
    if key == "" then Err(InvalidKey)
    else if hash == "" then Err(InvalidRequestHash)
    else Ok(Record(key, hash, InProgress, 0, "", now, now, now + if ttl <= 0 then DAY else ttl))
  }

  datatype Response = Response(key: string, hash: string, code: int, body: string)

  /** A request either owns its key, or replays what the key's owner answered. */
  datatype Started = Started(record: Record, replay: bool, code: int, body: string)

  // ----- what a request means, with no cache at all -----

  /** The answer to a request whose key has a record already. */
  function AnswerFrom(existing: Record, hash: string, now: int): Result<Started, Error> {
    if existing.IsExpired(now) then Err(ExpiredKey)
    else if existing.hash != hash then Err(RequestHashMismatch)
    else if existing.status.InProgress? then Err(RequestInProgress)
    else if !existing.status.Completed? then Err(InvalidStatus)
    else Ok(Started(existing, true, existing.code, existing.body))
  }

  function Start(records: map<string, Record>, key: string, hash: string, now: int, ttl: int): Result<Started, Error> {
    var record :- NewRecord(key, hash, now, ttl);
    if key in records then AnswerFrom(records[key], hash, now) else Ok(Started(record, false, 0, ""))
  }

  /** Only a request that owns its key leaves a record. */
  function RecordsAfter(records: map<string, Record>, r: Result<Started, Error>): map<string, Record> {
    if r.Ok? && !r.value.replay then records[r.value.record.key := r.value.record] else records
  }

  /** The record of a key as it is granted: for the time to live, or for a day if that is not positive. */
  predicate IsGrant(r: Record, key: string, hash: string, now: int, ttl: int) {
    r == Record(key, hash, InProgress, 0, "", now, now, now + if ttl <= 0 then 86_400_000_000_000 else ttl)
  }

  /** Past its expiry; the zero instant stands for no expiry. */
  predicate Past(r: Record, at: int) {
    r.expiresAt != 0 && at > r.expiresAt
  }

  /** The answer to a request whose key has a record, case by case. */
  predicate AnswersTaken(x: Record, hash: string, now: int, r: Result<Started, Error>) {
    && (Past(x, now) ==> r == Err(ExpiredKey))
    && (!Past(x, now) && x.hash != hash ==> r == Err(RequestHashMismatch))
    && (!Past(x, now) && x.hash == hash ==>
          && (x.status == InProgress ==> r == Err(RequestInProgress))
          && (x.status == Completed ==> r == Ok(Started(x, true, x.code, x.body)))
          && (x.status == Failed ==> r == Err(InvalidStatus)))
  }

  /** The answer to any request, and the records after it. */
  predicate AnswersStart(records: map<string, Record>, key: string, hash: string, now: int, ttl: int,
                         r: Result<Started, Error>, after: map<string, Record>) {
    && (key == "" ==> r == Err(InvalidKey))
    && (key != "" && hash == "" ==> r == Err(InvalidRequestHash))
    && (key != "" && hash != "" && key in records ==> AnswersTaken(records[key], hash, now, r))
    && (key != "" && hash != "" && key !in records ==>
          && r.Ok? && IsGrant(r.value.record, key, hash, now, ttl) && r.value == Started(r.value.record, false, 0, "")
          && after == records[key := r.value.record])
    && (key == "" || hash == "" || key in records ==> after == records)
  }

  lemma StartExactly(records: map<string, Record>, key: string, hash: string, now: int, ttl: int)
    ensures var r := Start(records, key, hash, now, ttl);
            AnswersStart(records, key, hash, now, ttl, r, RecordsAfter(records, r))
  {}

  /**
    Once a key's owner has completed it, every request under that key until its expiry gets the owner's
    response if it has the owner's hash, and is refused otherwise; after the expiry all are refused.
   */
  lemma RetryReplays(records: map<string, Record>, key: string, hash: string, now: int, ttl: int,
                     code: int, body: string, doneAt: int, retryHash: string, retryAt: int)
    requires key !in records && Start(records, key, hash, now, ttl).Ok? && retryHash != ""
    ensures var owned := RecordsAfter(records, Start(records, key, hash, now, ttl));
            && key in owned && owned[key].Complete(code, body, doneAt).Ok?
            && var done := owned[key].Complete(code, body, doneAt).value;
               var expiry := now + if ttl <= 0 then 86_400_000_000_000 else ttl;
               && done == Record(key, hash, Completed, code, body, now, doneAt, expiry)
               && Start(owned[key := done], key, retryHash, retryAt, ttl) ==
                  if expiry != 0 && retryAt > expiry then Err(ExpiredKey)
                  else if retryHash != hash then Err(RequestHashMismatch)
                  else Ok(Started(done, true, code, body))
  {}

  // ----- cache keys -----

  function CacheKey(prefix: string, key: string, hash: string): string {
    prefix + ":" + key + ":" + hash
  }

  /** A hexadecimal digest, in particular, holds no colon. */
  predicate Plain(hash: string) {
    ':' !in hash
  }

  lemma SameSuffix(a: string, b: string, c: string, d: string)
    requires a + b == c + d && |b| == |d|
    ensures a == c && b == d
  {
    assert a == (a + b)[..|a|] && c == (c + d)[..|c|];
    assert b == (a + b)[|a|..] && d == (c + d)[|c|..];
  }

  /** Two cache keys whose hashes differ in length collide exactly when one key extends the other. */
  lemma CacheKeyClash(prefix: string, key: string, hash: string, other: string, otherHash: string)
    requires |hash| > |otherHash|
    ensures CacheKey(prefix, key, hash) == CacheKey(prefix, other, otherHash) <==>
            exists mid :: other == key + ":" + mid && hash == mid + ":" + otherHash
  {
    var s, t := CacheKey(prefix, key, hash), CacheKey(prefix, other, otherHash);
    if s == t {
      var n := |hash| - |otherHash| - 1;
      var mid := hash[..n];
      var front := prefix + ":" + key + ":" + mid;
      SameSuffix(front, hash[n..], prefix + ":" + other, ":" + otherHash) by {
        assert s == front + hash[n..];
        assert t == (prefix + ":" + other) + (":" + otherHash);
      }
      assert hash == mid + hash[n..];
      SameSuffix(prefix + ":", key + ":" + mid, prefix + ":", other) by {
        assert front == (prefix + ":") + (key + ":" + mid);
      }
      assert other == key + ":" + mid && hash == mid + ":" + otherHash;
    }
    if mid :| other == key + ":" + mid && hash == mid + ":" + otherHash {
      assert s == prefix + ":" + key + ":" + mid + ":" + otherHash == t;
    }
  }

  /** For hashes without colons, or of one length, no two records share a cache key. */
  lemma CacheKeyInjective(prefix: string, key: string, hash: string, other: string, otherHash: string)
    requires |hash| == |otherHash| || (Plain(hash) && Plain(otherHash))
    ensures CacheKey(prefix, key, hash) == CacheKey(prefix, other, otherHash) <==> key == other && hash == otherHash
  {
    if |hash| > |otherHash| {
      CacheKeyClash(prefix, key, hash, other, otherHash);
      ColonInside(hash, otherHash);
    } else if |hash| < |otherHash| {
      CacheKeyClash(prefix, other, otherHash, key, hash);
      ColonInside(otherHash, hash);
    } else if CacheKey(prefix, key, hash) == CacheKey(prefix, other, otherHash) {
      SameSuffix(prefix + ":" + key + ":", hash, prefix + ":" + other + ":", otherHash);
      SameSuffix(prefix + ":" + key, ":", prefix + ":" + other, ":");
      assert key == (prefix + ":" + key)[|prefix| + 1..] && other == (prefix + ":" + other)[|prefix| + 1..];
    }
  }

  lemma ColonInside(hash: string, suffix: string)
    requires Plain(hash)
    ensures !exists mid :: hash == mid + ":" + suffix
  {
    forall mid ensures hash != mid + ":" + suffix {
      assert (mid + ":" + suffix)[|mid|] == ':';
    }
  }

  /** In general they can: neither the key nor the hash is delimited. */
  lemma CacheKeysCollide(prefix: string)
    ensures CacheKey(prefix, "a:b", "c") == CacheKey(prefix, "a", "b:c")
  {
    assert prefix + ":" + "a:b" + ":" + "c" == prefix + ":a:b:c" == prefix + ":" + "a" + ":" + "b:c";
  }

  // ----- what is hashed -----

  datatype Request = Request(verb: string, path: string, body: string)

  function Preimage(q: Request): string {
    q.verb + "\n" + q.path + "\n" + q.body
  }

  predicate OneLine(s: string) {
    '\n' !in s
  }

  lemma FirstLine(a: string, b: string, c: string, d: string)
    requires OneLine(a) && OneLine(c) && a + "\n" + b == c + "\n" + d
    ensures a == c && b == d
  {
    var s, t := a + "\n" + b, c + "\n" + d;
    assert s[|a|] == '\n' && t[|c|] == '\n';
    assert forall i :: 0 <= i < |c| ==> t[i] == c[i];
    assert forall i :: 0 <= i < |a| ==> s[i] == a[i];
    assert a == s[..|a|] && c == t[..|c|] && b == s[|a| + 1..] && d == t[|c| + 1..];
  }

  /** Requests whose method and path are single lines are hashed apart whenever they differ. */
  lemma PreimageInjective(q: Request, p: Request)
    requires OneLine(q.verb) && OneLine(q.path) && OneLine(p.verb) && OneLine(p.path)
    ensures Preimage(q) == Preimage(p) <==> q == p
  {
    if Preimage(q) == Preimage(p) {
      assert Preimage(q) == q.verb + "\n" + (q.path + "\n" + q.body);
      assert Preimage(p) == p.verb + "\n" + (p.path + "\n" + p.body);
      FirstLine(q.verb, q.path + "\n" + q.body, p.verb, p.path + "\n" + p.body);
      FirstLine(q.path, q.body, p.path, p.body);
    }
  }

  // ----- the cache against the records -----

  ghost predicate Keyed(records: map<string, Record>) {
    forall key :: key in records ==> records[key].key == key
  }

  ghost predicate PlainHashes(records: map<string, Record>) {
    forall key :: key in records ==> Plain(records[key].hash)
  }

  /** The response is the one a completed record holds. */
  predicate IsRecorded(records: map<string, Record>, x: Response) {
    && x.key in records && records[x.key].status.Completed?
    && records[x.key].hash == x.hash && records[x.key].code == x.code && records[x.key].body == x.body
  }

  /** Every cached entry was written for a completed record, under that record's cache key. */
  ghost predicate Mirrors(prefix: string, entries: map<string, Response>, records: map<string, Record>) {
    forall e :: e in entries ==>
      e == CacheKey(prefix, entries[e].key, entries[e].hash) && IsRecorded(records, entries[e])
  }

  /** What a hit makes of the answer. */
  function WithHit(r: Result<Started, Error>, hit: Option<Response>): Result<Started, Error> {
    if r.Ok? && r.value.replay && hit.Some? then Ok(r.value.(code := hit.value.code, body := hit.value.body)) else r
  }

  function Lookup(prefix: string, entries: map<string, Response>, key: string, hash: string): Option<Response> {
    if CacheKey(prefix, key, hash) in entries then Some(entries[CacheKey(prefix, key, hash)]) else None
  }

  /** A hit on a completed record's cache key holds that record's response. */
  lemma HitIsRecorded(prefix: string, entries: map<string, Response>, records: map<string, Record>, key: string)
    requires Mirrors(prefix, entries, records) && PlainHashes(records) && key in records
    ensures var hit := Lookup(prefix, entries, key, records[key].hash);
            hit.Some? ==>
              && records[key].status.Completed?
              && hit.value.code == records[key].code && hit.value.body == records[key].body
  {
    var hit := Lookup(prefix, entries, key, records[key].hash);
    if hit.Some? {
      assert IsRecorded(records, hit.value);
      CacheKeyInjective(prefix, key, records[key].hash, hit.value.key, hit.value.hash);
    }
  }

  /** Cache transparency: with colon-free hashes, every answer is the answer given without a cache. */
  lemma CacheTransparent(prefix: string, entries: map<string, Response>, records: map<string, Record>,
                         key: string, hash: string, now: int, ttl: int)
    requires Mirrors(prefix, entries, records) && PlainHashes(records)
    ensures WithHit(Start(records, key, hash, now, ttl), Lookup(prefix, entries, key, hash))
         == Start(records, key, hash, now, ttl)
  {
    if key in records {
      HitIsRecorded(prefix, entries, records, key);
    }
  }

  /** Cached entries outlive every change the service makes to the records. */
  lemma MirrorsLater(prefix: string, entries: map<string, Response>, records: map<string, Record>,
                     after: map<string, Record>)
    requires Mirrors(prefix, entries, records)
    requires forall k :: k in records && records[k].status.Completed? ==> k in after && after[k] == records[k]
    ensures Mirrors(prefix, entries, after)
  {}

  // ----- the stores and the service -----

  class RecordStore {
    var records: map<string, Record>

    constructor ()
      ensures records == map[]
    {
      records := map[];
    }

    method CreateRecord(record: Record) returns (r: Result<Record, Error>)
      modifies this
      ensures r == if record.key in old(records) then Err(DuplicateKey) else Ok(record)
      ensures records == if r.Ok? then old(records)[record.key := record] else old(records)
    {
      if record.key in records {
        return Err(DuplicateKey);
      }
      records := records[record.key := record];
      return Ok(record);
    }

    method GetRecord(key: string) returns (r: Result<Record, Error>)
      ensures r == if key in records then Ok(records[key]) else Err(RecordNotFound)
    {
      if key !in records {
        return Err(RecordNotFound);
      }
      return Ok(records[key]);
    }

    method UpdateRecord(record: Record) returns (r: Result<Record, Error>)
      modifies this
      ensures r == if record.key in old(records) then Ok(record) else Err(RecordNotFound)
      ensures records == if r.Ok? then old(records)[record.key := record] else old(records)
    {
      if record.key !in records {
        return Err(RecordNotFound);
      }
      records := records[record.key := record];
      return Ok(record);
    }
  }

  /** A cache may be unreachable at any call, and may lose entries at any moment. */
  class ResponseCache {
    const prefix: string
    var entries: map<string, Response>

    constructor (prefix: string)
      ensures this.prefix == prefix && entries == map[]
    {
      this.prefix := prefix;
      entries := map[];
    }

    method GetResponse(key: string, hash: string, up: bool) returns (hit: Option<Response>)
      ensures hit == if up then Lookup(prefix, entries, key, hash) else None
    {
      if !up {
        return None;
      }
      return Lookup(prefix, entries, key, hash);
    }

    method SetResponse(response: Response, up: bool)
      modifies this
      ensures entries == if up then old(entries)[CacheKey(prefix, response.key, response.hash) := response]
              else old(entries)
    {
      if up {
        entries := entries[CacheKey(prefix, response.key, response.hash) := response];
      }
    }

    /** Expiry, eviction, a restart. */
    method Lose(keys: set<string>, ghost records: map<string, Record>)
      requires Mirrors(prefix, entries, records)
      modifies this
      ensures Mirrors(prefix, entries, records) && entries == old(entries) - keys
    {
      entries := entries - keys;
    }
  }

  class Service {
    const store: RecordStore
    const cache: ResponseCache
    const ttl: int

    constructor (store: RecordStore, cache: ResponseCache, ttl: int)
      ensures this.store == store && this.cache == cache && this.ttl == if ttl <= 0 then DAY else ttl
    {
      this.store, this.cache := store, cache;
      this.ttl := if ttl <= 0 then DAY else ttl;
    }

    /** The keys match, and every cached entry mirrors a completed record. */
    ghost predicate Valid()
      reads store, cache
    {
      Keyed(store.records) && Mirrors(cache.prefix, cache.entries, store.records)
    }

    method StartRequest(key: string, hash: string, now: int, cacheUp: bool) returns (r: Result<Started, Error>)
      requires Valid()
      modifies store
      ensures Valid()
      ensures var plain := Start(old(store.records), key, hash, now, ttl);
              && r == WithHit(plain, if cacheUp then Lookup(cache.prefix, cache.entries, key, hash) else None)
              && store.records == RecordsAfter(old(store.records), plain)
              && (PlainHashes(old(store.records)) ==> r == plain)
      ensures PlainHashes(old(store.records)) ==>
                AnswersStart(old(store.records), key, hash, now, ttl, r, store.records)
    {
      StartExactly(store.records, key, hash, now, ttl);
      CacheTransparentIfPlain(cache.prefix, cache.entries, store.records, key, hash, now, ttl);
      var record :- NewRecord(key, hash, now, ttl);
      var created := store.CreateRecord(record);
      if created.Ok? {
        return Ok(Started(created.value, false, 0, ""));
      }
      var found := store.GetRecord(record.key);
      match found {
        case Err(e) => return Err(e);
        case Ok(existing) =>
          if existing.IsExpired(now) {
            return Err(ExpiredKey);
          }
          if existing.hash != record.hash {
            return Err(RequestHashMismatch);
          }
          if existing.status.InProgress? {
            return Err(RequestInProgress);
          }
          if !existing.status.Completed? {
            return Err(InvalidStatus);
          }
          var cached := cache.GetResponse(existing.key, existing.hash, cacheUp);
          match cached {
            case Some(response) => return Ok(Started(existing, true, response.code, response.body));
            case None => return Ok(Started(existing, true, existing.code, existing.body));
          }
      }
    }

    method CompleteRequest(key: string, code: int, body: string, now: int, cacheUp: bool)
      returns (r: Result<Record, Error>)
      requires Valid()
      modifies store, cache
      ensures Valid()
      ensures r == if key !in old(store.records) then Err(RecordNotFound)
              else if old(store.records)[key].status != InProgress then Err(InvalidStatus)
              else Ok(old(store.records)[key].(status := Completed, code := code, body := body, updatedAt := now))
      ensures store.records == if r.Ok? then old(store.records)[key := r.value] else old(store.records)
      ensures cache.entries == if r.Ok? && cacheUp
                               then old(cache.entries)[CacheKey(cache.prefix, key, r.value.hash) :=
                                      Response(key, r.value.hash, code, body)]
                               else old(cache.entries)
    {
      var existing :- store.GetRecord(key);
      var completed :- existing.Complete(code, body, now);
      var saved := store.UpdateRecord(completed);
      match saved {
        case Err(e) => return Err(e);
        case Ok(updated) =>
          MirrorsLater(cache.prefix, cache.entries, old(store.records), store.records);
          cache.SetResponse(Response(updated.key, updated.hash, updated.code, updated.body), cacheUp);
          return Ok(updated);
      }
    }
  }

  lemma CacheTransparentIfPlain(prefix: string, entries: map<string, Response>, records: map<string, Record>,
                                key: string, hash: string, now: int, ttl: int)
    requires Mirrors(prefix, entries, records)
    ensures PlainHashes(records) ==>
              (WithHit(Start(records, key, hash, now, ttl), Lookup(prefix, entries, key, hash))
               == Start(records, key, hash, now, ttl))
  {
    if PlainHashes(records) {
      CacheTransparent(prefix, entries, records, key, hash, now, ttl);
    }
  }
}
